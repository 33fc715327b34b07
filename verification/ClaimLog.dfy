/** The history of one receipt's scan lane, as events. It is what the scan columns of a row are
    checked against: the columns are a function of the events, and the legal event sequences say
    what claims can happen to. */
module ClaimLog {
  import opened Basics
  import opened ScanTypes
  import opened Tables

  datatype Event =
    | Created(queued: bool)
    | Issued(token: nat)
    | Applied(token: nat, images: seq<string>)
    | Failed(token: nat, scanError: bool, terminal: bool, gaveUp: bool)
    | Reclaimed(token: nat, gaveUp: bool)
    | Added(voided: Option<nat>)
    | Retried

  function Last(log: seq<Event>): Event
    requires log != []
  {
    log[|log| - 1]
  }

  function Front(log: seq<Event>): seq<Event>
    requires log != []
  {
    log[..|log| - 1]
  }

  // ---- the scan columns, read off the events ----

  function StateAfter(e: Event): ScanState {
    match e
    case Created(queued) => if queued then Uploaded else Idle
    case Issued(_) => Scanning
    case Applied(_, _) => Idle
    case Failed(_, _, _, gaveUp) => if gaveUp then ScanFailed else Uploaded
    case Reclaimed(_, gaveUp) => if gaveUp then ScanFailed else Uploaded
    case Added(_) => Uploaded
    case Retried => Uploaded
  }

  /** The claim outstanding, if any. */
  function Live(log: seq<Event>): Option<nat> {
    if log != [] && Last(log).Issued? then Some(Last(log).token) else None
  }

  /** ScanErrors recorded since creation or the last retry. */
  function ScanErrors(log: seq<Event>): nat {
    if log == [] || Last(log).Retried? then 0
    else ScanErrors(Front(log)) + (if Last(log).Failed? && Last(log).scanError then 1 else 0)
  }

  /** Reclaims and infrastructure failures recorded since creation or the last retry. */
  function InfraErrors(log: seq<Event>): nat {
    if log == [] || Last(log).Retried? then 0
    else InfraErrors(Front(log)) + (if Last(log).Reclaimed? || (Last(log).Failed? && !Last(log).scanError) then 1 else 0)
  }

  function LastToken(log: seq<Event>): int {
    if log == [] then -1 else if Last(log).Issued? then Last(log).token else LastToken(Front(log))
  }

  // ---- legal histories ----

  /** The claim an event ends. */
  function Ends(e: Event): Option<nat> {
    match e
    case Applied(t, _) => Some(t)
    case Failed(t, _, _, _) => Some(t)
    case Reclaimed(t, _) => Some(t)
    case Added(v) => v
    case _ => None
  }

  predicate GivesUp(e: Event) {
    (e.Failed? && e.gaveUp) || (e.Reclaimed? && e.gaveUp)
  }

  predicate LegalNext(c: Config, log: seq<Event>, e: Event)
    requires log != []
  {
    && Ends(e) == Live(log)
    && match e
       case Created(_) => false
       case Issued(t) => StateAfter(Last(log)) == Uploaded && LastToken(log) < t
       case Failed(_, scanError, terminal, gaveUp) =>
         && (terminal ==> scanError)
         && (gaveUp <==> terminal || (if scanError then ScanErrors(log) + 1 >= c.maxScanAttempts
                                      else InfraErrors(log) + 1 >= c.maxReclaims))
       case Reclaimed(_, gaveUp) => gaveUp <==> InfraErrors(log) + 1 >= c.maxReclaims
       case Retried => StateAfter(Last(log)) == ScanFailed
       case _ => true
  }

  predicate Legal(c: Config, log: seq<Event>) {
    && log != []
    && if |log| == 1 then log[0].Created? else Legal(c, Front(log)) && LegalNext(c, Front(log), Last(log))
  }

  lemma Append(c: Config, log: seq<Event>, e: Event)
    requires Legal(c, log) && LegalNext(c, log, e)
    ensures Legal(c, log + [e])
    ensures Front(log + [e]) == log && Last(log + [e]) == e
    ensures ScanErrors(log + [e]) == if e.Retried? then 0 else ScanErrors(log) + (if e.Failed? && e.scanError then 1 else 0)
    ensures InfraErrors(log + [e]) ==
      if e.Retried? then 0 else InfraErrors(log) + (if e.Reclaimed? || (e.Failed? && !e.scanError) then 1 else 0)
    ensures LastToken(log + [e]) == if e.Issued? then e.token else LastToken(log)
  {
    assert Front(log + [e]) == log;
  }

  // ---- conservation of claims ----

  datatype Outcome = IssuedClaim | AppliedResult | RecordedFailure | ReclaimedClaim | VoidedClaim

  predicate HasOutcome(e: Event, o: Outcome) {
    match o
    case IssuedClaim => e.Issued?
    case AppliedResult => e.Applied?
    case RecordedFailure => e.Failed?
    case ReclaimedClaim => e.Reclaimed?
    case VoidedClaim => e.Added? && e.voided.Some?
  }

  function Count(log: seq<Event>, o: Outcome): nat {
    if log == [] then 0 else Count(Front(log), o) + (if HasOutcome(Last(log), o) then 1 else 0)
  }

  /** Every claim issued was applied, failed, reclaimed or voided, or is the one outstanding. */
  lemma {:induction false} ClaimsAreConserved(c: Config, log: seq<Event>)
    requires Legal(c, log)
    ensures Count(log, IssuedClaim)
         == Count(log, AppliedResult) + Count(log, RecordedFailure) + Count(log, ReclaimedClaim) + Count(log, VoidedClaim)
            + (if Live(log).Some? then 1 else 0)
  {
    if |log| == 1 {
      assert Front(log) == [];
    } else {
      ClaimsAreConserved(c, Front(log));
    }
  }

  lemma {:induction false} TokensBelowLast(c: Config, log: seq<Event>, i: nat)
    requires Legal(c, log) && i < |log|
    ensures Ends(log[i]).Some? ==> Ends(log[i]).value <= LastToken(log)
    ensures Ends(log[i]).Some? && Live(log).Some? ==> Ends(log[i]).value < LastToken(log)
    ensures Live(log).Some? ==> Live(log).value == LastToken(log)
  {
    if |log| > 1 {
      if i < |log| - 1 {
        assert Front(log)[i] == log[i];
        TokensBelowLast(c, Front(log), i);
      } else {
        TokensBelowLast(c, Front(log), 0);
      }
    }
  }

  /** A claim ends at most once, and the event that ends it comes right after the one that issued it:
      nothing else happens to the lane while a claim is outstanding. */
  lemma {:induction false} ClaimsEndOnce(c: Config, log: seq<Event>, i: nat, j: nat)
    requires Legal(c, log) && i < j < |log|
    requires Ends(log[j]).Some?
    ensures log[j - 1] == Issued(Ends(log[j]).value)
    ensures Ends(log[i]) != Ends(log[j])
  {
    if j < |log| - 1 {
      assert Front(log)[i] == log[i] && Front(log)[j] == log[j] && Front(log)[j - 1] == log[j - 1];
      ClaimsEndOnce(c, Front(log), i, j);
    } else {
      assert Front(log)[i] == log[i];
      TokensBelowLast(c, Front(log), i);
    }
  }

  // ---- giving up ----

  /** The claim `token` was ended by giving the receipt up. */
  predicate GaveUpOn(log: seq<Event>, token: nat) {
    log != [] && ((GivesUp(Last(log)) && Last(log).token == token) || GaveUpOn(Front(log), token))
  }

  lemma {:induction false} LiveNotGivenUp(c: Config, log: seq<Event>, token: nat)
    requires Legal(c, log)
    ensures GaveUpOn(log, token) ==> token <= LastToken(log)
    ensures Live(log) == Some(token) ==> !GaveUpOn(log, token)
  {
    if |log| == 1 {
      assert !GaveUpOn(Front(log), token);
    } else {
      LiveNotGivenUp(c, Front(log), token);
      if Live(Front(log)).Some? { TokensBelowLast(c, Front(log), 0); }
    }
  }

  // ---- a row and its history ----

  /** The row's scan columns are what its history says, a claim in progress is the one outstanding,
      and a row at rest holds exactly the images its last applied scan read. */
  predicate Tracks(c: Config, row: Row, log: seq<Event>) {
    && Legal(c, log)
    && row.lane.state == StateAfter(Last(log))
    && row.lane.attempts == ScanErrors(log)
    && row.lane.reclaims == InfraErrors(log)
    && (row.lane.state == Scanning ==> row.lane.startedAt == Live(log))
    && (row.lane.state == Idle ==> row.images == if Last(log).Applied? then Last(log).images else [])
  }
}
