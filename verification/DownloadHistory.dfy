/** What the download records say, in terms of the reports alone: an independent account that
    the accounting of `Downloads` is proved to agree with after any sequence of reports. */
module DownloadHistory {
  import opened Results
  import opened Text
  import opened Downloads

  // ----- The reports on one download -------------------------------------------------

  function Guid(call: Call): string { call.guid }

  /** All downloads that were reported. */
  function Reported(calls: seq<Call>): set<string> { set i | 0 <= i < |calls| :: Guid(calls[i]) }

  predicate IsProgress(call: Call, g: string) { call.Progress? && call.guid == g }

  /** The last progress report on a download. */
  function LastReport(calls: seq<Call>, g: string): (r: Option<Call>)
    ensures r.Some? ==> IsProgress(r.value, g)
  {
    if calls == [] then None
    else if IsProgress(calls[|calls| - 1], g) then Some(calls[|calls| - 1])
    else LastReport(calls[..|calls| - 1], g)
  }

  /** The last size hint given for a download. */
  function LastHint(calls: seq<Call>, g: string): Option<U64> {
    if calls == [] then None
    else if IsProgress(calls[|calls| - 1], g) && calls[|calls| - 1].hint.Some? then calls[|calls| - 1].hint
    else LastHint(calls[..|calls| - 1], g)
  }

  /** The most bytes ever reported for a download. */
  function Greatest(calls: seq<Call>, g: string): U64 {
    if calls == [] then 0
    else
      var before := Greatest(calls[..|calls| - 1], g);
      if IsProgress(calls[|calls| - 1], g) && calls[|calls| - 1].received > before then calls[|calls| - 1].received
      else before
  }

  /** The first 32 characters of the state last reported, or nothing. */
  function LastState(calls: seq<Call>, g: string): string {
    var last := LastReport(calls, g);
    if last.None? then ""
    else if |last.value.state| > 32 then last.value.state[..32]
    else last.value.state
  }

  // ----- The verdicts ----------------------------------------------------------------

  /** The records without marks. */
  function Seen(calls: seq<Call>): map<string, Record> {
    map g | g in Reported(calls) :: Record(Greatest(calls, g), LastHint(calls, g), LastState(calls, g), false)
  }

  /** Whether the last of the reports shows its download over a limit: too many downloads, or, for a
      progress report, too many bytes received, announced, or received in all. */
  ghost predicate ShowsOver(calls: seq<Call>, limits: Limits)
    requires calls != []
  {
    var call := calls[|calls| - 1];
    || Saturated32(|Reported(calls)|) > limits.count
    || (call.Progress?
        && (|| Greatest(calls, call.guid) > limits.perFile
            || (LastHint(calls, call.guid).Some? && LastHint(calls, call.guid).value > limits.perFile)
            || Saturated64(Sum(Seen(calls), Received)) > limits.total))
  }

  /** Whether some report ever showed a download over a limit. */
  ghost predicate WasOver(calls: seq<Call>, limits: Limits, g: string) {
    exists n: nat :: 0 < n <= |calls| && Guid(calls[n - 1]) == g && ShowsOver(calls[..n], limits)
  }

  // ----- The records are the reports -------------------------------------------------

  lemma ReportedNext(calls: seq<Call>)
    requires calls != []
    ensures Reported(calls) == Reported(calls[..|calls| - 1]) + {Guid(calls[|calls| - 1])}
  {
    var front := calls[..|calls| - 1];
    forall g | g in Reported(calls) ensures g in Reported(front) + {Guid(calls[|calls| - 1])} {
      var i :| 0 <= i < |calls| && Guid(calls[i]) == g;
      assert i < |front| ==> front[i] == calls[i];
    }
    forall g | g in Reported(front) ensures g in Reported(calls) {
      var i :| 0 <= i < |front| && Guid(front[i]) == g;
      assert calls[i] == front[i];
    }
  }

  lemma WasOverNext(calls: seq<Call>, limits: Limits, g: string)
    requires calls != []
    ensures WasOver(calls, limits, g) <==>
              || WasOver(calls[..|calls| - 1], limits, g)
              || (Guid(calls[|calls| - 1]) == g && ShowsOver(calls, limits))
  {
    var front := calls[..|calls| - 1];
    forall n: nat | 0 < n <= |front| ensures front[..n] == calls[..n] && front[n - 1] == calls[n - 1] {}
    assert calls[..|calls|] == calls;
    if WasOver(front, limits, g) {
      var n: nat :| 0 < n <= |front| && Guid(front[n - 1]) == g && ShowsOver(front[..n], limits);
      assert Guid(calls[n - 1]) == g && ShowsOver(calls[..n], limits);
    }
  }

  /** A sum depends only on the names and what each weighs. */
  lemma {:induction false} SumsAlike(a: map<string, Record>, b: map<string, Record>)
    requires a.Keys == b.Keys && forall g :: g in a ==> a[g].received == b[g].received
    ensures Sum(a, Received) == Sum(b, Received)
    decreases |a|
  {
    if a == map[] {
      assert b == map[];
    } else {
      var g :| g in a;
      SumWithout(a, Received, g);
      SumWithout(b, Received, g);
      SumsAlike(a - {g}, b - {g});
    }
  }

  /** The answer of a call: whether its download is over a limit. */
  function Answer(s: State, call: Call, limits: Limits): bool {
    match call
    case Begin(guid) => Begun(s, guid, limits).1
    case Progress(guid, received, hint, state) => Progressed(s, guid, received, hint, state, limits).1
  }

  /** Over a limit, by what the accounting says after a call. */
  ghost predicate IsOverAfter(s: State, call: Call, limits: Limits) {
    call.guid in s.records
    && (|| s.started > limits.count
        || (call.Progress?
            && (|| s.records[call.guid].received > limits.perFile
                || (s.records[call.guid].totalHint.Some? && s.records[call.guid].totalHint.value > limits.perFile)
                || s.totalReceived > limits.total)))
  }

  lemma AnswerByFields(s: State, call: Call, limits: Limits)
    ensures call.guid in Step(s, call, limits).records
    ensures Answer(s, call, limits) <==> IsOverAfter(Step(s, call, limits), call, limits)
  {
  }

  /** What one call does to the records. */
  lemma StepByFields(s: State, call: Call, limits: Limits, g: string)
    ensures var s' := Step(s, call, limits);
            && (g in s'.records <==> g in s.records || g == call.guid)
            && (g != call.guid && g in s.records ==> s'.records[g] == s.records[g])
            && (g == call.guid ==>
                  var was := if g in s.records then s.records[g] else Record(0, None, "", false);
                  var now := s'.records[g];
                  && (now.quotaExceeded <==> was.quotaExceeded || Answer(s, call, limits))
                  && if call.Begin?
                     then now.received == was.received && now.totalHint == was.totalHint && now.state == was.state
                     else
                       && now.received == (if call.received > was.received then call.received else was.received)
                       && now.totalHint == (if call.hint.Some? then call.hint else was.totalHint)
                       && now.state == (if |call.state| > 32 then call.state[..32] else call.state))
  {
  }

  /** What the accounting keeps of a download is what was reported on it. */
  ghost predicate Agrees(calls: seq<Call>, records: map<string, Record>, g: string) {
    && (g in records <==> g in Reported(calls))
    && (g in records ==>
          && records[g].received == Greatest(calls, g) && records[g].totalHint == LastHint(calls, g)
          && records[g].state == LastState(calls, g))
  }

  lemma {:induction false} UnreportedIsBlank(calls: seq<Call>, g: string)
    ensures g !in Reported(calls) ==>
              LastReport(calls, g) == None && LastHint(calls, g) == None && Greatest(calls, g) == 0
  {
    if calls != [] {
      ReportedNext(calls);
      UnreportedIsBlank(calls[..|calls| - 1], g);
    }
  }

  /** After any reports, with any limits, each record holds the most bytes reported, the last hint
      and the last state. */
  lemma {:induction false} RecordsAreReports(calls: seq<Call>, limits: Limits, g: string)
    ensures Agrees(calls, After(calls, limits).records, g)
  {
    if calls != [] {
      var front, call := calls[..|calls| - 1], calls[|calls| - 1];
      RecordsAreReports(front, limits, g);
      ReportedNext(calls);
      UnreportedIsBlank(front, g);
      StepByFields(After(front, limits), call, limits, g);
    }
  }

  lemma OverAfterIsShown(calls: seq<Call>, s: State, limits: Limits)
    requires calls != [] && Truth(s) && forall g :: Agrees(calls, s.records, g)
    ensures IsOverAfter(s, calls[|calls| - 1], limits) <==> ShowsOver(calls, limits)
  {
    SumsAgree(calls, s.records);
    assert Agrees(calls, s.records, calls[|calls| - 1].guid);
    ReportedNext(calls);
  }

  /** A call answers true exactly if the reports so far show its download over a limit. */
  lemma AnswersAreShown(calls: seq<Call>, limits: Limits)
    requires calls != []
    ensures Answer(After(calls[..|calls| - 1], limits), calls[|calls| - 1], limits) <==> ShowsOver(calls, limits)
  {
    var s, call := After(calls, limits), calls[|calls| - 1];
    QuotasHold(calls, limits);
    forall g ensures Agrees(calls, s.records, g) { RecordsAreReports(calls, limits, g); }
    OverAfterIsShown(calls, s, limits);
    AnswerByFields(After(calls[..|calls| - 1], limits), call, limits);
  }

  lemma SumsAgree(calls: seq<Call>, records: map<string, Record>)
    requires forall g :: Agrees(calls, records, g)
    ensures |records| == |Reported(calls)| && Sum(records, Received) == Sum(Seen(calls), Received)
  {
    forall g ensures g in records <==> g in Reported(calls) { assert Agrees(calls, records, g); }
    assert records.Keys == Reported(calls);
    assert |records| == |records.Keys|;
    forall g | g in records ensures records[g].received == Seen(calls)[g].received { assert Agrees(calls, records, g); }
    SumsAlike(records, Seen(calls));
  }

  /** After any reports, a download is marked exactly if some report ever showed it over a limit. */
  lemma {:induction false} MarksAreOvers(calls: seq<Call>, limits: Limits, g: string)
    requires g in After(calls, limits).records
    ensures After(calls, limits).records[g].quotaExceeded <==> WasOver(calls, limits, g)
    decreases |calls|
  {
    if calls != [] {
      var front, call := calls[..|calls| - 1], calls[|calls| - 1];
      var s := After(front, limits);
      StepByFields(s, call, limits, g);
      AnswersAreShown(calls, limits);
      WasOverNext(calls, limits, g);
      if g in s.records {
        MarksAreOvers(front, limits, g);
      } else {
        RecordsAreReports(front, limits, g);
        NeverOver(front, limits, g);
      }
    }
  }

  lemma NeverOver(calls: seq<Call>, limits: Limits, g: string)
    requires g !in Reported(calls)
    ensures !WasOver(calls, limits, g)
  {}

  // ----- What is listed --------------------------------------------------------------

  /** After any reports under enforceable limits, a file is listed exactly if it is suitable, the
      last report on it said "completed", and no report ever showed it over a limit. */
  lemma ListedExactlyIf(calls: seq<Call>, files: map<string, nat>, limits: Limits, g: string)
    requires IsEnforceable(limits)
    ensures g in Artifacts(After(calls, limits).records, files, limits, Sorted(After(calls, limits).records.Keys)) <==>
              && g in files && files[g] <= limits.perFile
              && LastReport(calls, g).Some? && LastReport(calls, g).value.state == "completed"
              && !WasOver(calls, limits, g)
  {
    ArtifactsAreComplete(calls, files, limits);
    RecordsAreReports(calls, limits, g);
    UnreportedIsBlank(calls, g);
    if g in After(calls, limits).records { MarksAreOvers(calls, limits, g); }
    CompletedIsShort(LastState(calls, g), calls, g);
  }

  lemma CompletedIsShort(state: string, calls: seq<Call>, g: string)
    requires state == LastState(calls, g)
    ensures state == "completed" <==> LastReport(calls, g).Some? && LastReport(calls, g).value.state == "completed"
  {
    assert |"completed"| == 9;
  }
}
