/** Download accounting of the browser adapter: saturating counters against true sums, and
    what can ever be listed as an artifact. */
module Downloads {
  import opened Results
  import opened Text
  import opened Sets

  const MAX_U32 := 0xFFFF_FFFF
  const MAX_U64 := 0xFFFF_FFFF_FFFF_FFFF

  type U32 = n: nat | n <= MAX_U32
  type U64 = n: nat | n <= MAX_U64

  datatype Limits = Limits(perFile: U64, total: U64, count: U32)

  datatype Record = Record(received: U64, totalHint: Option<U64>, state: string, quotaExceeded: bool)
  const NEW_RECORD := Record(0, None, "", false)

  /** The fields of `DownloadState`. */
  datatype State = State(started: U32, totalReceived: U64, records: map<string, Record>, cancellations: U32)
  const START := State(0, 0, map[], 0)

  function Saturated32(n: nat): U32 { if n <= MAX_U32 then n else MAX_U32 }
  function Saturated64(n: nat): U64 { if n <= MAX_U64 then n else MAX_U64 }

  // ----- What the methods compute ----------------------------------------------------

  function Ensured(s: State, guid: string): State {
    if guid in s.records then s
    else s.(started := Saturated32(s.started + 1), records := s.records[guid := NEW_RECORD])
  }

  function Marked(s: State, guid: string): State
    requires guid in s.records
  {
    if s.records[guid].quotaExceeded then s
    else s.(records := s.records[guid := s.records[guid].(quotaExceeded := true)],
            cancellations := Saturated32(s.cancellations + 1))
  }

  function Begun(s: State, guid: string, limits: Limits): (State, bool) {
    var e := Ensured(s, guid);
    var over := e.started > limits.count;
    (if over then Marked(e, guid) else e, over)
  }

  function First32(s: string): string { if |s| <= 32 then s else s[..32] }

  /** The state once a report is entered, before any mark. */
  function Entered(s: State, guid: string, received: U64, hint: Option<U64>, state: string): State
    requires guid in s.records
  {
    var was := s.records[guid];
    var growth := if received > was.received then received - was.received else 0;
    s.(totalReceived := Saturated64(s.totalReceived + growth),
       records := s.records[guid := Record(if received > was.received then received else was.received,
                                           if hint.Some? then hint else was.totalHint,
                                           First32(state), was.quotaExceeded)])
  }

  predicate IsOver(s: State, guid: string, limits: Limits)
    requires guid in s.records
  {
    || s.started > limits.count
    || s.records[guid].received > limits.perFile
    || (s.records[guid].totalHint.Some? && s.records[guid].totalHint.value > limits.perFile)
    || s.totalReceived > limits.total
  }

  function Progressed(s: State, guid: string, received: U64, hint: Option<U64>, state: string, limits: Limits)
    : (State, bool)
  {
    var e := Entered(Ensured(s, guid), guid, received, hint, state);
    var over := IsOver(e, guid, limits);
    (if over then Marked(e, guid) else e, over)
  }

  // ----- The class -------------------------------------------------------------------

  class DownloadState {
    var started: U32
    var totalReceived: U64
    var records: map<string, Record>
    var quotaCancellations: U32

    ghost function Fields(): State
      reads this
    {
      State(started, totalReceived, records, quotaCancellations)
    }

    constructor ()
      ensures Fields() == START
    {
      started, totalReceived, records, quotaCancellations := 0, 0, map[], 0;
    }

    method EnsureRecord(guid: string)
      modifies this
      ensures Fields() == Ensured(old(Fields()), guid)
    {
      if guid !in records {
        started := Saturated32(started + 1);
        records := records[guid := NEW_RECORD];
      }
    }

    method Begin(guid: string, limits: Limits) returns (over: bool)
      modifies this
      ensures (Fields(), over) == Begun(old(Fields()), guid, limits)
    {
      EnsureRecord(guid);
      over := started > limits.count;
      if over && !records[guid].quotaExceeded {
        records := records[guid := records[guid].(quotaExceeded := true)];
        quotaCancellations := Saturated32(quotaCancellations + 1);
      }
    }

    method Progress(guid: string, received: U64, hint: Option<U64>, state: string, limits: Limits) returns (over: bool)
      modifies this
      ensures (Fields(), over) == Progressed(old(Fields()), guid, received, hint, state, limits)
    {
      EnsureRecord(guid);
      var previous := records[guid].received;
      totalReceived := Saturated64(totalReceived + if received > previous then received - previous else 0);
      var countOver := started > limits.count;
      var record := records[guid];
      record := record.(received := if received > previous then received else previous);
      record := record.(totalHint := if hint.Some? then hint else record.totalHint, state := First32(state));
      over := countOver
        || record.received > limits.perFile
        || (record.totalHint.Some? && record.totalHint.value > limits.perFile)
        || totalReceived > limits.total;
      if over && !record.quotaExceeded {
        record := record.(quotaExceeded := true);
        quotaCancellations := Saturated32(quotaCancellations + 1);
      }
      ghost var entered := records[guid := record.(quotaExceeded := records[guid].quotaExceeded)];
      records := records[guid := record];
      assert records == entered[guid := record];
    }
  }

  // ----- Sums over records -----------------------------------------------------------

  function Received(r: Record): nat { r.received }
  function Kept(r: Record): nat { if r.quotaExceeded then 0 else r.received }

  ghost function Sum(records: map<string, Record>, weight: Record -> nat): nat
    decreases |records|
  {
    if records == map[] then 0 else
      var g :| g in records;
      weight(records[g]) + Sum(records - {g}, weight)
  }

  lemma {:induction false} SumWithout(records: map<string, Record>, weight: Record -> nat, g: string)
    requires g in records
    ensures Sum(records, weight) == weight(records[g]) + Sum(records - {g}, weight)
    decreases |records|
  {
    var h :| h in records && Sum(records, weight) == weight(records[h]) + Sum(records - {h}, weight);
    if h != g {
      SumWithout(records - {h}, weight, g);
      assert records - {h} - {g} == records - {g} - {h};
      SumWithout(records - {g}, weight, h);
    }
  }

  lemma SumWith(records: map<string, Record>, weight: Record -> nat, g: string, r: Record)
    ensures Sum(records[g := r], weight) + (if g in records then weight(records[g]) else 0) ==
        Sum(records, weight) + weight(r)
  {
    SumWithout(records[g := r], weight, g);
    assert records[g := r] - {g} == records - {g};
    if g in records { SumWithout(records, weight, g); } else { assert records - {g} == records; }
  }

  // ----- The invariant ---------------------------------------------------------------

  ghost function MarkedNames(records: map<string, Record>): set<string> {
    set g | g in records && records[g].quotaExceeded
  }

  ghost function UnmarkedNames(records: map<string, Record>): set<string> {
    set g | g in records && !records[g].quotaExceeded
  }

  ghost predicate WithinFile(r: Record, limits: Limits) {
    !r.quotaExceeded ==> r.received <= limits.perFile && (r.totalHint.Some? ==> r.totalHint.value <= limits.perFile)
  }

  /** The counters are the saturated truth. */
  ghost predicate Truth(s: State) {
    && s.started == Saturated32(|s.records|)
    && s.totalReceived == Saturated64(Sum(s.records, Received))
    && s.cancellations == Saturated32(|MarkedNames(s.records)|)
  }

  /** What is not marked keeps to every limit. */
  ghost predicate Quotas(s: State, limits: Limits) {
    && |UnmarkedNames(s.records)| <= limits.count
    && Sum(s.records, Kept) <= limits.total
    && (forall g {:trigger WithinFile(s.records[g], limits)} :: g in s.records ==> WithinFile(s.records[g], limits))
  }

  /** Limits that can be exceeded before the counters saturate, or need not be counted. */
  predicate IsEnforceable(limits: Limits) {
    limits.count < MAX_U32 && (limits.total < MAX_U64 || limits.count * limits.perFile <= MAX_U64)
  }

  /** The bounds that the validation of the browser's configuration sets. */
  predicate IsConfigurable(limits: Limits) {
    && 0 < limits.perFile <= 256 * 1024 * 1024
    && 0 < limits.total <= 1024 * 1024 * 1024
    && 0 < limits.count <= 64
    && limits.perFile <= limits.total
  }

  ghost predicate Inv(s: State, limits: Limits) {
    Truth(s) && (IsEnforceable(limits) ==> Quotas(s, limits))
  }

  lemma NamesSplit(records: map<string, Record>)
    ensures |records| == |MarkedNames(records)| + |UnmarkedNames(records)|
  {
    assert records.Keys == MarkedNames(records) + UnmarkedNames(records);
    assert |records| == |records.Keys|;
  }

  /** The quotas but for one record, which a report is changing. */
  ghost predicate QuotasBut(s: State, limits: Limits, guid: string) {
    && |UnmarkedNames(s.records) - {guid}| <= limits.count
    && Sum(s.records - {guid}, Kept) <= limits.total
    && (forall g {:trigger WithinFile(s.records[g], limits)} ::
          g in s.records && g != guid ==> WithinFile(s.records[g], limits))
  }

  ghost predicate InvBut(s: State, limits: Limits, guid: string) {
    guid in s.records && Truth(s) && (IsEnforceable(limits) ==> QuotasBut(s, limits, guid))
  }

  lemma NamesWith(records: map<string, Record>, g: string, r: Record)
    ensures MarkedNames(records[g := r]) == (MarkedNames(records) - {g}) + if r.quotaExceeded then {g} else {}
    ensures UnmarkedNames(records[g := r]) - {g} == UnmarkedNames(records) - {g}
    ensures g in UnmarkedNames(records[g := r]) <==> !r.quotaExceeded
  {}

  lemma RecordsWith(records: map<string, Record>, g: string, r: Record)
    ensures records[g := r] - {g} == records - {g}
    ensures |records[g := r]| == |records| + if g in records then 0 else 1
  {
    assert records[g := r].Keys == records.Keys + {g};
    assert |records[g := r]| == |records[g := r].Keys| && |records| == |records.Keys|;
  }

  lemma EnsuredKeeps(s: State, guid: string, limits: Limits)
    requires Inv(s, limits)
    ensures InvBut(Ensured(s, guid), limits, guid)
    ensures guid !in s.records ==> Ensured(s, guid).records == s.records[guid := NEW_RECORD]
  {
    var e := Ensured(s, guid);
    forall g | IsEnforceable(limits) && g in e.records && g != guid ensures WithinFile(e.records[g], limits) {
      assert WithinFile(s.records[g], limits);
    }
    if guid in s.records {
      SumWithout(s.records, Kept, guid);
      SubsetIsSmaller(UnmarkedNames(s.records) - {guid}, UnmarkedNames(s.records));
    } else {
      NewNames(s.records, guid);
      RecordsWith(s.records, guid, NEW_RECORD);
      SumWith(s.records, Received, guid, NEW_RECORD);
      assert s.records - {guid} == s.records;
    }
  }

  lemma NewNames(records: map<string, Record>, g: string)
    requires g !in records
    ensures MarkedNames(records[g := NEW_RECORD]) == MarkedNames(records)
    ensures UnmarkedNames(records[g := NEW_RECORD]) - {g} == UnmarkedNames(records)
  {}

  lemma SameMark(records: map<string, Record>, g: string, r: Record)
    requires g in records && records[g].quotaExceeded == r.quotaExceeded
    ensures (MarkedNames(records) - {g}) + (if r.quotaExceeded then {g} else {}) == MarkedNames(records)
  {}

  lemma EnteredKeeps(s: State, guid: string, limits: Limits, received: U64, hint: Option<U64>, state: string)
    requires InvBut(s, limits, guid)
    ensures InvBut(Entered(s, guid, received, hint, state), limits, guid)
  {
    var e := Entered(s, guid, received, hint, state);
    var r := e.records[guid];
    forall g | IsEnforceable(limits) && g in e.records && g != guid ensures WithinFile(e.records[g], limits) {
      assert WithinFile(s.records[g], limits);
    }
    NamesWith(s.records, guid, r);
    RecordsWith(s.records, guid, r);
    SumWith(s.records, Received, guid, r);
    SameMark(s.records, guid, r);
  }

  /** A marked record does not weigh on the limits. */
  lemma MarkedSettles(s: State, guid: string, limits: Limits)
    requires InvBut(s, limits, guid) && s.records[guid].quotaExceeded
    ensures Inv(s, limits)
  {
    forall g | IsEnforceable(limits) && g in s.records ensures WithinFile(s.records[g], limits) {
      if g != guid { assert WithinFile(s.records[g], limits); }
    }
    SumWithout(s.records, Kept, guid);
    assert UnmarkedNames(s.records) - {guid} == UnmarkedNames(s.records);
  }

  lemma MarkingKeeps(s: State, guid: string, limits: Limits)
    requires InvBut(s, limits, guid) && !s.records[guid].quotaExceeded
    ensures InvBut(Marked(s, guid), limits, guid)
  {
    var r := s.records[guid].(quotaExceeded := true);
    NamesWith(s.records, guid, r);
    RecordsWith(s.records, guid, r);
    SumWith(s.records, Received, guid, r);
    assert MarkedNames(s.records) - {guid} == MarkedNames(s.records);
    forall g | IsEnforceable(limits) && g in s.records && g != guid
      ensures WithinFile(Marked(s, guid).records[g], limits)
    {
      assert WithinFile(s.records[g], limits);
    }
  }

  lemma MarkingSettles(s: State, guid: string, limits: Limits)
    requires InvBut(s, limits, guid)
    ensures Inv(Marked(s, guid), limits)
  {
    if !s.records[guid].quotaExceeded { MarkingKeeps(s, guid, limits); }
    MarkedSettles(Marked(s, guid), guid, limits);
  }

  /** A record that is within its limits while no count is exceeded need not be marked. */
  lemma WithinLimits(s: State, guid: string, limits: Limits)
    requires InvBut(s, limits, guid) && s.started <= limits.count
    requires s.records[guid].received <= limits.perFile
    requires s.records[guid].totalHint.Some? ==> s.records[guid].totalHint.value <= limits.perFile
    requires s.records[guid].received == 0 || s.totalReceived <= limits.total
    ensures Inv(s, limits)
  {
    if IsEnforceable(limits) {
      forall g | g in s.records ensures WithinFile(s.records[g], limits) {
        if g != guid { assert WithinFile(s.records[g], limits); }
      }
      NamesSplit(s.records);
      SumWithout(s.records, Kept, guid);
      SumWithout(s.records, Received, guid);
      KeptIsPart(s.records - {guid});
      KeptIsBounded(s.records, limits);
      ProductGrows(|UnmarkedNames(s.records)|, limits.count, limits.perFile);
    }
  }

  lemma ProductGrows(a: nat, b: nat, c: nat)
    requires a <= b
    ensures a * c <= b * c
  {}

  lemma {:induction false} KeptIsBounded(records: map<string, Record>, limits: Limits)
    requires forall g {:trigger WithinFile(records[g], limits)} :: g in records ==> WithinFile(records[g], limits)
    ensures Sum(records, Kept) <= |UnmarkedNames(records)| * limits.perFile
    decreases |records|
  {
    if records != map[] {
      var g :| g in records;
      var rest := records - {g};
      assert WithinFile(records[g], limits);
      forall h | h in rest ensures WithinFile(rest[h], limits) { assert WithinFile(records[h], limits); }
      SumWithout(records, Kept, g);
      KeptIsBounded(rest, limits);
      UnmarkedWithout(records, g);
      OneMore(|UnmarkedNames(rest)|, limits.perFile);
    }
  }

  lemma OneMore(n: nat, c: nat)
    ensures (n + 1) * c == n * c + c
  {}

  lemma UnmarkedWithout(records: map<string, Record>, g: string)
    requires g in records
    ensures |UnmarkedNames(records)| == |UnmarkedNames(records - {g})| + if records[g].quotaExceeded then 0 else 1
  {
    assert UnmarkedNames(records) == UnmarkedNames(records - {g}) + if records[g].quotaExceeded then {} else {g};
  }

  lemma {:induction false} KeptIsPart(records: map<string, Record>)
    ensures Sum(records, Kept) <= Sum(records, Received)
    decreases |records|
  {
    if records != map[] {
      var g :| g in records;
      SumWithout(records, Kept, g);
      SumWithout(records, Received, g);
      KeptIsPart(records - {g});
    }
  }

  lemma BeginKeeps(s: State, guid: string, limits: Limits)
    requires Inv(s, limits)
    ensures Inv(Begun(s, guid, limits).0, limits)
  {
    var e := Ensured(s, guid);
    EnsuredKeeps(s, guid, limits);
    if e.started > limits.count {
      MarkingSettles(e, guid, limits);
    } else if guid !in s.records {
      WithinLimits(e, guid, limits);
    } else {
      assert e == s;
    }
  }

  lemma ProgressKeeps(s: State, guid: string, received: U64, hint: Option<U64>, state: string, limits: Limits)
    requires Inv(s, limits)
    ensures Inv(Progressed(s, guid, received, hint, state, limits).0, limits)
  {
    EnsuredKeeps(s, guid, limits);
    EnteredKeeps(Ensured(s, guid), guid, limits, received, hint, state);
    var e := Entered(Ensured(s, guid), guid, received, hint, state);
    if IsOver(e, guid, limits) {
      MarkingSettles(e, guid, limits);
    } else {
      WithinLimits(e, guid, limits);
    }
  }

  // ----- Any sequence of reports -----------------------------------------------------

  datatype Call = Begin(guid: string) | Progress(guid: string, received: U64, hint: Option<U64>, state: string)

  function Step(s: State, call: Call, limits: Limits): State {
    match call
    case Begin(guid) => Begun(s, guid, limits).0
    case Progress(guid, received, hint, state) => Progressed(s, guid, received, hint, state, limits).0
  }

  function After(calls: seq<Call>, limits: Limits): State {
    if calls == [] then START else Step(After(calls[..|calls| - 1], limits), calls[|calls| - 1], limits)
  }

  /** Whatever the browser reports, in whatever order, for any downloads: the counters are the
      saturated truth, and enforceable quotas hold. */
  lemma {:induction false} QuotasHold(calls: seq<Call>, limits: Limits)
    ensures Truth(After(calls, limits))
    ensures IsEnforceable(limits) ==> Quotas(After(calls, limits), limits)
  {
    if calls == [] {
      assert MarkedNames(map[]) == {} && UnmarkedNames(map[]) == {};
    } else {
      var s := After(calls[..|calls| - 1], limits);
      QuotasHold(calls[..|calls| - 1], limits);
      match calls[|calls| - 1] {
        case Begin(guid) => BeginKeeps(s, guid, limits);
        case Progress(guid, received, hint, state) => ProgressKeeps(s, guid, received, hint, state, limits);
      }
    }
  }

  /** `n` downloads that each report the same. */
  function Reports(n: nat, received: U64): seq<Call> {
    if n == 0 then [] else Reports(n - 1, received) + [Progress(Decimal(n), received, None, "")]
  }

  /** A new download within what the counters show is not marked. */
  lemma ReportPasses(s: State, guid: string, received: U64, limits: Limits)
    requires guid !in s.records && received <= limits.perFile
    requires Saturated32(s.started + 1) <= limits.count && Saturated64(s.totalReceived + received) <= limits.total
    ensures var s', record := Step(s, Progress(guid, received, None, ""), limits), Record(received, None, "", false);
            && s'.started == Saturated32(s.started + 1) && s'.totalReceived == Saturated64(s.totalReceived + received)
            && s'.records == s.records[guid := record]
            && |UnmarkedNames(s'.records)| == |UnmarkedNames(s.records)| + 1
            && Sum(s'.records, Kept) == Sum(s.records, Kept) + received
  {
    var record := Record(received, None, "", false);
    assert s.records[guid := NEW_RECORD][guid := record] == s.records[guid := record];
    UnmarkedWithout(s.records[guid := record], guid);
    assert s.records[guid := record] - {guid} == s.records;
    SumWith(s.records, Kept, guid, record);
  }

  ghost predicate AreNumbered(records: map<string, Record>, n: nat) {
    forall g :: g in records ==> AllDigits(g) && 1 <= Value(g) <= n
  }

  lemma NextNumber(records: map<string, Record>, n: nat, record: Record)
    requires n >= 1 && AreNumbered(records, n - 1)
    ensures Decimal(n) !in records && AreNumbered(records[Decimal(n) := record], n)
  {
    ValueOfDecimal(n);
  }

  lemma ReportsNext(n: nat, received: U64, limits: Limits)
    requires n > 0
    ensures After(Reports(n, received), limits) ==
              Step(After(Reports(n - 1, received), limits), Progress(Decimal(n), received, None, ""), limits)
  {
    var calls := Reports(n, received);
    assert calls[..|calls| - 1] == Reports(n - 1, received);
  }

  /** Reports that exceed nothing the counters can show mark nothing, however many there are. */
  lemma {:induction false} ReportsPass(n: nat, received: U64, limits: Limits)
    requires received <= limits.perFile && Saturated32(n) <= limits.count && Saturated64(n * received) <= limits.total
    ensures var s := After(Reports(n, received), limits);
            && s.started == Saturated32(n) && s.totalReceived == Saturated64(n * received)
            && |UnmarkedNames(s.records)| == n && Sum(s.records, Kept) == n * received
            && AreNumbered(s.records, n)
  {
    if n == 0 {
      assert UnmarkedNames(map[]) == {};
    } else {
      var before := After(Reports(n - 1, received), limits);
      OneMore(n - 1, received);
      ReportsPass(n - 1, received, limits);
      NextNumber(before.records, n, Record(received, None, "", false));
      ReportPasses(before, Decimal(n), received, limits);
      ReportsNext(n, received, limits);
    }
  }

  /** The quotas hold over all runs exactly for limits that are enforceable. */
  lemma QuotasHoldExactlyIfEnforceable(limits: Limits)
    ensures IsEnforceable(limits) <==> forall calls :: Quotas(After(calls, limits), limits)
  {
    forall calls | IsEnforceable(limits) ensures Quotas(After(calls, limits), limits) { QuotasHold(calls, limits); }
    if !IsEnforceable(limits) {
      var (n, received) := if limits.count == MAX_U32 then (MAX_U32 + 1, 0) else (limits.count, limits.perFile);
      ReportsPass(n, received, limits);
      assert !Quotas(After(Reports(n, received), limits), limits);
    }
  }

  /** Under any configuration that is accepted, the quotas hold whatever the browser reports. */
  lemma ConfiguredQuotasHold(calls: seq<Call>, limits: Limits)
    requires IsConfigurable(limits)
    ensures IsEnforceable(limits) && Quotas(After(calls, limits), limits)
  {
    QuotasHold(calls, limits);
  }

  lemma StepKeepsMarks(s: State, call: Call, limits: Limits, g: string)
    requires g in s.records
    ensures g in Step(s, call, limits).records
    ensures s.records[g].quotaExceeded ==> Step(s, call, limits).records[g].quotaExceeded
    ensures Step(s, call, limits).records[g].received >= s.records[g].received
  {
  }

  /** A mark stays, and what was received never shrinks, although a later report on the same
      download may say that it is within its limits again. */
  lemma {:induction false} MarksStay(calls: seq<Call>, more: seq<Call>, limits: Limits, g: string)
    requires g in After(calls, limits).records
    ensures g in After(calls + more, limits).records
    ensures After(calls, limits).records[g].quotaExceeded ==> After(calls + more, limits).records[g].quotaExceeded
    ensures After(calls + more, limits).records[g].received >= After(calls, limits).records[g].received
    decreases |more|
  {
    if more == [] {
      assert calls + more == calls;
    } else {
      var before := calls + more[..|more| - 1];
      MarksStay(calls, more[..|more| - 1], limits, g);
      StepKeepsMarks(After(before, limits), more[|more| - 1], limits, g);
      assert (calls + more)[..|calls + more| - 1] == before;
    }
  }

  /** Over its limits by what never shrinks: the count, the bytes received, or their total. */
  predicate IsOverForGood(s: State, g: string, limits: Limits)
    requires g in s.records
  {
    s.started > limits.count || s.records[g].received > limits.perFile || s.totalReceived > limits.total
  }

  lemma StepStaysOver(s: State, call: Call, limits: Limits, g: string)
    requires g in s.records && IsOverForGood(s, g, limits)
    ensures g in Step(s, call, limits).records && IsOverForGood(Step(s, call, limits), g, limits)
  {
  }

  lemma {:induction false} StaysOver(calls: seq<Call>, more: seq<Call>, limits: Limits, g: string)
    requires g in After(calls, limits).records && IsOverForGood(After(calls, limits), g, limits)
    ensures g in After(calls + more, limits).records && IsOverForGood(After(calls + more, limits), g, limits)
    decreases |more|
  {
    if more == [] {
      assert calls + more == calls;
    } else {
      var before := calls + more[..|more| - 1];
      StaysOver(calls, more[..|more| - 1], limits, g);
      StepStaysOver(After(before, limits), more[|more| - 1], limits, g);
      assert (calls + more)[..|calls + more| - 1] == before;
    }
  }

  /** Whether `progress` on a download would answer that it is over its limits. */
  predicate SaysOver(s: State, limits: Limits, g: string, received: U64, hint: Option<U64>, state: string) {
    Progressed(s, g, received, hint, state, limits).1
  }

  /** The answer of `progress` stays true, whatever else is reported before, exactly if the
      download is over by something that never shrinks; a size hint alone does not suffice. */
  lemma OverIsStickyExactlyIf(calls: seq<Call>, limits: Limits, g: string)
    requires g in After(calls, limits).records
    ensures IsOverForGood(After(calls, limits), g, limits) <==>
              forall more: seq<Call>, received: U64, hint: Option<U64>, state: string ::
                SaysOver(After(calls + more, limits), limits, g, received, hint, state)
  {
    var s := After(calls, limits);
    if IsOverForGood(s, g, limits) {
      forall more: seq<Call>, received: U64, hint: Option<U64>, state: string
        ensures SaysOver(After(calls + more, limits), limits, g, received, hint, state)
      {
        StaysOver(calls, more, limits, g);
      }
    } else {
      assert calls + [] == calls;
      assert !SaysOver(After(calls + [], limits), limits, g, 0, Some(0), "");
    }
  }

  /** Reports can alternate: with a size hint alone over the limit, a smaller one makes `progress`
      answer that a marked download is not over its limits; the mark is what remembers. */
  lemma OverIsNotSticky()
    ensures var limits, calls := Limits(100, 150, 2), [Begin("large"), Progress("large", 1, Some(101), "inProgress")];
            && Progressed(After(calls[..1], limits), "large", 1, Some(101), "inProgress", limits).1
            && !Progressed(After(calls, limits), "large", 1, Some(50), "inProgress", limits).1
            && After(calls, limits).records["large"].quotaExceeded
  {
    var limits, calls := Limits(100, 150, 2), [Begin("large"), Progress("large", 1, Some(101), "inProgress")];
    assert calls[..1] == [Begin("large")] && calls[..1][..0] == [];
    assert After(calls[..1], limits) == Begun(START, "large", limits).0;
    assert After(calls, limits) == Step(After(calls[..1], limits), calls[1], limits);
  }

  // ----- Artifacts -------------------------------------------------------------------

  /** What the listing accepts: a completed, unmarked record whose file is a private regular
      file (`files` holds the lengths of those) within the limit. */
  predicate IsArtifact(records: map<string, Record>, files: map<string, nat>, limits: Limits, g: string) {
    g in records && records[g].state == "completed" && !records[g].quotaExceeded && g in files
        && files[g] <= limits.perFile
  }

  function Artifacts(records: map<string, Record>, files: map<string, nat>, limits: Limits,
                     names: seq<string>): seq<string>
  {
    if names == [] then [] else
      (if IsArtifact(records, files, limits, names[0]) then [names[0]] else [])
      + Artifacts(records, files, limits, names[1..])
  }

  lemma {:induction false} ArtifactsJoin(records: map<string, Record>, files: map<string, nat>, limits: Limits,
                                         a: seq<string>, b: seq<string>)
    ensures Artifacts(records, files, limits, a + b) ==
        Artifacts(records, files, limits, a) + Artifacts(records, files, limits, b)
  {
    if a == [] {
      assert a + b == b;
    } else {
      ArtifactsJoin(records, files, limits, a[1..], b);
      assert (a + b)[1..] == a[1..] + b;
    }
  }

  /** `download_artifacts`: the loop over the records, which stops at the count. */
  method ListArtifacts(records: map<string, Record>, files: map<string, nat>, limits: Limits) returns (ids: seq<string>)
    ensures var all := Artifacts(records, files, limits, Sorted(records.Keys));
            && ids <= all && (ids == all || |ids| >= limits.count)
            && (|all| <= limits.count ==> ids == all)
    ensures |ids| <= if limits.count == 0 then 1 else limits.count
  {
    var names := Sorted(records.Keys);
    ids := [];
    for i := 0 to |names|
      invariant ids == Artifacts(records, files, limits, names[..i])
      invariant ids == [] || |ids| < limits.count
    {
      ArtifactsNext(records, files, limits, names, i);
      if !IsArtifact(records, files, limits, names[i]) { continue; }
      ids := ids + [names[i]];
      if |ids| >= limits.count {
        PrefixOfSameLength(ids, Artifacts(records, files, limits, names));
        return;
      }
    }
    assert names[..|names|] == names;
  }

  lemma PrefixOfSameLength(a: seq<string>, b: seq<string>)
    requires a <= b
    ensures |b| <= |a| ==> a == b
  {}

  lemma ArtifactsNext(records: map<string, Record>, files: map<string, nat>, limits: Limits, names: seq<string>, i: nat)
    requires i < |names|
    ensures var done, all := Artifacts(records, files, limits, names[..i]), Artifacts(records, files, limits, names);
            && Artifacts(records, files, limits, names[..i + 1])
               == done + (if IsArtifact(records, files, limits, names[i]) then [names[i]] else [])
            && Artifacts(records, files, limits, names[..i + 1]) <= all
  {
    var g := names[i];
    assert names == names[..i + 1] + names[i + 1..] && names[..i + 1] == names[..i] + [g];
    ArtifactsJoin(records, files, limits, names[..i + 1], names[i + 1..]);
    ArtifactsJoin(records, files, limits, names[..i], [g]);
  }

  lemma {:induction false} ArtifactsAreUnmarked(records: map<string, Record>, files: map<string, nat>, limits: Limits,
                                                names: seq<string>)
    requires Ascending(names)
    ensures var all := Artifacts(records, files, limits, names);
            && (forall g :: g in all ==> g in names && IsArtifact(records, files, limits, g))
            && (forall g :: g in names && IsArtifact(records, files, limits, g) ==> g in all)
            && |all| == |set g | g in all|
  {
    if names != [] {
      var rest := Artifacts(records, files, limits, names[1..]);
      ArtifactsAreUnmarked(records, files, limits, names[1..]);
      forall g | g in names[1..] ensures g != names[0] { BelowIsStrict(names[0], g); }
      if IsArtifact(records, files, limits, names[0]) {
        var all := [names[0]] + rest;
        assert (set g | g in all) == {names[0]} + (set g | g in rest);
      } else {
        assert Artifacts(records, files, limits, names) == rest;
      }
    }
  }

  lemma ArtifactsWithin(records: map<string, Record>, files: map<string, nat>, limits: Limits)
    requires |UnmarkedNames(records)| <= limits.count
    ensures var all := Artifacts(records, files, limits, Sorted(records.Keys));
            && |all| <= limits.count
            && (forall g :: g in all <==> IsArtifact(records, files, limits, g))
  {
    var all := Artifacts(records, files, limits, Sorted(records.Keys));
    ArtifactsAreUnmarked(records, files, limits, Sorted(records.Keys));
    var listed := set g | g in all;
    assert listed <= UnmarkedNames(records);
    SubsetIsSmaller(listed, UnmarkedNames(records));
  }

  /** After any reports, every artifact is listed, none is marked, they number at most `count`
      and none was received beyond `perFile`: the cut at the count never bites. */
  lemma ArtifactsAreComplete(calls: seq<Call>, files: map<string, nat>, limits: Limits)
    requires IsEnforceable(limits)
    ensures var records := After(calls, limits).records;
            var all := Artifacts(records, files, limits, Sorted(records.Keys));
            && |all| <= limits.count
            && (forall g :: g in all <==> IsArtifact(records, files, limits, g))
            && (forall g :: g in all ==> records[g].received <= limits.perFile && files[g] <= limits.perFile)
  {
    QuotasHold(calls, limits);
    var records := After(calls, limits).records;
    ArtifactsWithin(records, files, limits);
    forall g | g in Artifacts(records, files, limits, Sorted(records.Keys))
      ensures records[g].received <= limits.perFile
    {
      assert IsArtifact(records, files, limits, g);
      assert WithinFile(records[g], limits);
    }
  }
}
