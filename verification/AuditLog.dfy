/** The audit fold: what the revision log alone says about the row. */
module AuditLog {
  import opened Domain
  import opened Transactions

  /** A build outcome and how many builds had been requested when it was written. */
  datatype Outcome = Outcome(sha: Sha, succeeded: bool, requestedBefore: nat)

  /** The requested commits and the outcomes, each in log order. */
  datatype Builds = Builds(requests: seq<Sha>, outcomes: seq<Outcome>)
  {
    function Newest(): Option<Sha> { if requests == [] then None else Some(requests[|requests| - 1]) }
  }

  datatype Summary = Summary(
    matching: MatchingState,
    digest: Option<Image>,
    generation: nat,
    deletes: nat,
    builds: Builds)

  function Absorb(s: Summary, r: Revision): Summary {
    match r.action
    case Create(sha) => s.(builds := s.builds.(requests := s.builds.requests + [sha]))
    case Edit(sha) => s.(builds := s.builds.(requests := s.builds.requests + [sha]))
    case Enable => s.(matching := Active, generation := s.generation + 1)
    case Disable => s.(matching := Inactive, generation := s.generation + 1)
    case Delete => s.(matching := Deleting, generation := s.generation + 1, deletes := s.deletes + 1)
    case BuildSucceeded(sha) =>
      s.(digest := r.resultingDigest,
         builds := s.builds.(outcomes := s.builds.outcomes + [Outcome(sha, true, |s.builds.requests|)]))
    case BuildFailure(sha) =>
      s.(builds := s.builds.(outcomes := s.builds.outcomes + [Outcome(sha, false, |s.builds.requests|)]))
  }

  function Replay(log: seq<Revision>): Summary {
    if log == [] then Summary(Inactive, None, 0, 0, Builds([], []))
    else Absorb(Replay(log[..|log| - 1]), log[|log| - 1])
  }

  lemma ReplayAppend(log: seq<Revision>, r: Revision)
    ensures Replay(log + [r]) == Absorb(Replay(log), r)
  {
    assert (log + [r])[..|log|] == log;
  }

  /** Stamping a requesting revision with its digest changes nothing the fold reads. */
  lemma {:induction false} ReplayStamp(log: seq<Revision>, sha: Sha, image: Image)
    ensures Replay(Stamp(log, sha, image)) == Replay(log)
  {
    if log != [] {
      var front := log[..|log| - 1];
      assert Stamp(log, sha, image)[..|log| - 1] == Stamp(front, sha, image);
      ReplayStamp(front, sha, image);
    }
  }

  /** The query of the raced-failure check reads the newest request of the fold. */
  lemma {:induction false} NewestIsReplayed(log: seq<Revision>)
    ensures NewestRequest(log) == Replay(log).builds.Newest()
  {
    if log != [] {
      NewestIsReplayed(log[..|log| - 1]);
    }
  }

  lemma ReplayCutOver(db: Db, event: CiWebhook, created: Option<CappDeployment>)
    requires event.outcome.Success?
    ensures Replay(CutOver(db, event, created).log)
         == Absorb(Replay(db.log), Revision(BuildSucceeded(event.sha), Some(event.outcome.image), BUILD_ACTOR))
  {
    ReplayStamp(db.log, event.sha, event.outcome.image);
    ReplayAppend(Stamp(db.log, event.sha, event.outcome.image),
                 Revision(BuildSucceeded(event.sha), Some(event.outcome.image), BUILD_ACTOR));
  }

  /** Whether each outcome recorded for `sha`, in order, was a success. */
  function OutcomesOf(outcomes: seq<Outcome>, sha: Sha): seq<bool> {
    if outcomes == [] then []
    else
      var last := outcomes[|outcomes| - 1];
      var before := OutcomesOf(outcomes[..|outcomes| - 1], sha);
      if last.sha == sha then before + [last.succeeded] else before
  }

  lemma OutcomesAppend(outcomes: seq<Outcome>, o: Outcome, sha: Sha)
    ensures OutcomesOf(outcomes + [o], sha)
         == if o.sha == sha then OutcomesOf(outcomes, sha) + [o.succeeded] else OutcomesOf(outcomes, sha)
  {
    assert (outcomes + [o])[..|outcomes|] == outcomes;
  }

  lemma {:induction false} NoOutcomeWithoutRow(outcomes: seq<Outcome>, sha: Sha)
    requires forall i | 0 <= i < |outcomes| :: outcomes[i].sha != sha
    ensures OutcomesOf(outcomes, sha) == []
  {
    if outcomes != [] {
      NoOutcomeWithoutRow(outcomes[..|outcomes| - 1], sha);
    }
  }

  // --- what a requesting revision learns --------------------------------------

  /** The digest of the last success recorded for `sha`. */
  function BuiltFor(log: seq<Revision>, sha: Sha): Option<Image> {
    if log == [] then None
    else
      var last := log[|log| - 1];
      if last.action == BuildSucceeded(sha) then last.resultingDigest else BuiltFor(log[..|log| - 1], sha)
  }

  /** Every requesting revision carries the digest its commit last produced. */
  ghost predicate RequestsLearn(log: seq<Revision>) {
    forall i | 0 <= i < |log| && log[i].action.Requesting() ::
      log[i].resultingDigest == BuiltFor(log, log[i].action.sha)
  }

  lemma {:induction false} BuiltForStamp(log: seq<Revision>, sha: Sha, image: Image, s: Sha)
    ensures BuiltFor(Stamp(log, sha, image), s) == BuiltFor(log, s)
  {
    if log != [] {
      var front := log[..|log| - 1];
      assert Stamp(log, sha, image)[..|log| - 1] == Stamp(front, sha, image);
      BuiltForStamp(front, sha, image, s);
    }
  }

  lemma {:induction false} NothingBuiltUnrequested(log: seq<Revision>, sha: Sha)
    requires forall i | 0 <= i < |log| :: log[i].action != BuildSucceeded(sha)
    ensures BuiltFor(log, sha) == None
  {
    if log != [] {
      NothingBuiltUnrequested(log[..|log| - 1], sha);
    }
  }

  lemma LearnAppend(log: seq<Revision>, r: Revision)
    requires RequestsLearn(log)
    requires !r.action.BuildSucceeded?
    requires r.action.Requesting() ==>
      r.resultingDigest == None && forall i | 0 <= i < |log| :: log[i].action != BuildSucceeded(r.action.sha)
    ensures RequestsLearn(log + [r])
  {
    var log' := log + [r];
    assert log'[..|log|] == log;
    if r.action.Requesting() {
      NothingBuiltUnrequested(log, r.action.sha);
    }
  }

  lemma LearnCutOver(log: seq<Revision>, sha: Sha, image: Image)
    requires RequestsLearn(log)
    ensures RequestsLearn(Stamp(log, sha, image) + [Revision(BuildSucceeded(sha), Some(image), BUILD_ACTOR)])
  {
    var stamped := Stamp(log, sha, image);
    var log' := stamped + [Revision(BuildSucceeded(sha), Some(image), BUILD_ACTOR)];
    assert log'[..|log|] == stamped;
    forall i | 0 <= i < |log'| && log'[i].action.Requesting()
      ensures log'[i].resultingDigest == BuiltFor(log', log'[i].action.sha)
    {
      BuiltForStamp(log, sha, image, log'[i].action.sha);
    }
  }
}
