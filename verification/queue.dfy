/**
 The submission queue of one signing key: submissions go out one at a time,
 in the order enqueued, and the next is prepared only once the last one's
 outcome is known. What a submission may be answered, and what may happen
 when, is read off the worker's journal (`Orderly`); the worker keeps it at
 every moment, up to wherever the process is cut off.
 */
module Queues {
  import opened Types

  /** Why the chain layer answered no outcome. */
  datatype ChainFail =
    /** A send the RPC refused outright. */
    | Rejected
    /** A request that failed before any envelope left: transport, HTTP status, an RPC error, a ledger that moved. */
    | Unreached
    | SequenceTaken
    | SimulationRefused(code: Option<u32>)
    /** The restore transaction `prepare` sent on its own is what is unresolved. */
    | RestoreUnresolved
    | Unbuildable

  /** Whether a failure proves that nothing of the submission reached the network, and may be tried again. */
  predicate SentNothing(fail: ChainFail) { fail.Rejected? || fail.Unreached? }

  datatype Preparing = Ready(hash: nat) | Unready(fail: ChainFail)

  /** Sending: taken, refused, or an answer that was lost and proves nothing. */
  datatype Sending = Taken | Turned(fail: ChainFail) | AnswerLost

  datatype Answer = Done(outcome: TxOutcome) | Failing(fail: ChainFail) | ShutDown

  datatype Policy = Policy(initial: nat, max: nat)

  /** One thing the worker did or was told, of the submission named. */
  datatype Deed =
    | Prepared(of: nat, preparing: Preparing)
    | Sent(of: nat, sending: Sending)
    | Polled(of: nat, outcome: TxOutcome)
    | Paused(of: nat, pause: nat)
    | Answered(of: nat, answer: Answer)
    /** The shutdown flag was read set. */
    | Stopping

  // ----- what a journal comes to ------------------------------------------

  /**
   Where the worker stands: how many submissions were answered; of the one
   worked on, its attempts, whether an envelope of it may have reached the
   network, its last failure and the last outcome polled; and of the key,
   whether an operation or a restore of it is unresolved, and whether a
   shutdown was seen.
   */
  datatype Standing = Standing(
    answers: nat,
    attempts: nat,
    letGo: bool,
    fail: Option<ChainFail>,
    poll: Option<TxOutcome>,
    last: Option<Deed>,
    inFlight: bool,
    restoreLoose: bool,
    stopping: bool)

  const IDLE := Standing(0, 0, false, None, None, None, false, false, false)

  function After(s: Standing, deed: Deed): Standing {
    var s := s.(last := Some(deed));
    match deed
    case Prepared(_, preparing) =>
      s.(attempts := s.attempts + 1, poll := None,
         fail := if preparing.Unready? then Some(preparing.fail) else None,
         restoreLoose := s.restoreLoose || preparing == Unready(RestoreUnresolved))
    case Sent(_, sending) =>
      if sending.Turned? then s.(fail := Some(sending.fail)) else s.(letGo := true, inFlight := true)
    case Polled(_, outcome) => s.(poll := Some(outcome), inFlight := outcome.Unknown?)
    case Paused(_, _) => s
    case Answered(_, _) => s.(answers := s.answers + 1, attempts := 0, letGo := false, fail := None, poll := None)
    case Stopping => s.(stopping := true)
  }

  function StandingOf(journal: seq<Deed>): Standing
    decreases |journal|
  {
    if journal == [] then IDLE else After(StandingOf(journal[..|journal| - 1]), journal[|journal| - 1])
  }

  function PowerOfTwo(n: nat): nat { if n == 0 then 1 else 2 * PowerOfTwo(n - 1) }

  /** The pause before the `k`-th retry, counted from none. */
  function PauseOf(policy: Policy, k: nat): nat { Min(policy.initial * PowerOfTwo(k), policy.max) }

  /**
   What may come next. A submission is prepared with every earlier one
   answered, no operation in flight and no shutdown seen, and again only
   after a failure that sent nothing and a pause, at most once more than its
   retries. It is answered with what its last attempt came to: an unknown
   outcome only once a shutdown was seen, and a failure only when nothing of
   it was let go.
   */
  ghost predicate Follows(retries: seq<nat>, policy: Policy, s: Standing, deed: Deed) {
    && (!deed.Stopping? ==> deed.of == s.answers < |retries|)
    && match deed
       case Prepared(n, _) =>
         && !s.inFlight && !s.letGo && !s.stopping
         && s.attempts <= retries[n]
         && (s.attempts > 0 ==>
               s.fail.Some? && SentNothing(s.fail.value) && s.last == Some(Paused(n, PauseOf(policy, s.attempts - 1))))
       case Sent(n, sending) =>
         && s.last.Some? && s.last.value.Prepared? && s.last.value.of == n && s.last.value.preparing.Ready?
         && (sending.Turned? ==> sending.fail.Rejected? || sending.fail.SequenceTaken?)
       case Polled(_, _) => s.inFlight && s.letGo
       case Paused(n, pause) =>
         && !s.stopping && 0 < s.attempts <= retries[n] && pause == PauseOf(policy, s.attempts - 1)
         && s.fail.Some? && SentNothing(s.fail.value)
       case Answered(n, answer) => MayAnswer(retries[n], s, answer)
       case Stopping => true
  }

  predicate MayAnswer(retries: nat, s: Standing, answer: Answer) {
    match answer
    case Done(outcome) => s.letGo && s.poll == Some(outcome) && (outcome.Unknown? ==> s.stopping)
    case Failing(fail) =>
      && s.attempts > 0 && !s.letGo && s.fail == Some(fail)
      && (SentNothing(fail) ==> s.attempts == retries + 1 || s.stopping)
    case ShutDown => s.attempts == 0 && !s.letGo && s.stopping
  }

  /** The `i`-th deed of a journal follows what came before it. */
  ghost predicate InPlace(retries: seq<nat>, policy: Policy, journal: seq<Deed>, i: nat)
    requires i < |journal|
  {
    Follows(retries, policy, StandingOf(journal[..i]), journal[i])
  }

  /** A journal the queue may have kept. */
  ghost predicate Orderly(retries: seq<nat>, policy: Policy, journal: seq<Deed>) {
    forall i {:trigger InPlace(retries, policy, journal, i)} :: 0 <= i < |journal| ==>
      InPlace(retries, policy, journal, i)
  }

  // ----- what every journal keeps -----------------------------------------

  lemma OrderlyPrefix(retries: seq<nat>, policy: Policy, journal: seq<Deed>, i: nat)
    requires Orderly(retries, policy, journal) && i <= |journal|
    ensures Orderly(retries, policy, journal[..i])
  {
    forall j | 0 <= j < i ensures InPlace(retries, policy, journal[..i], j) {
      assert InPlace(retries, policy, journal, j);
      assert journal[..i][..j] == journal[..j];
    }
  }

  lemma OrderlyNext(retries: seq<nat>, policy: Policy, journal: seq<Deed>, deed: Deed)
    requires Orderly(retries, policy, journal) && Follows(retries, policy, StandingOf(journal), deed)
    ensures Orderly(retries, policy, journal + [deed])
    ensures StandingOf(journal + [deed]) == After(StandingOf(journal), deed)
  {
    var longer := journal + [deed];
    assert longer[..|journal|] == journal;
    forall i | 0 <= i < |longer| ensures InPlace(retries, policy, longer, i) {
      assert longer[..i] == journal[..i];
      if i < |journal| { assert InPlace(retries, policy, journal, i); }
    }
  }

  lemma OnePast(retries: seq<nat>, policy: Policy, journal: seq<Deed>)
    requires Orderly(retries, policy, journal) && journal != []
    ensures var past := journal[..|journal| - 1];
      && Orderly(retries, policy, past) && Follows(retries, policy, StandingOf(past), journal[|past|])
      && StandingOf(journal) == After(StandingOf(past), journal[|past|])
  {
    OrderlyPrefix(retries, policy, journal, |journal| - 1);
    assert InPlace(retries, policy, journal, |journal| - 1);
  }

  /** How often submission `n` was prepared. */
  function Attempts(journal: seq<Deed>, n: nat): nat
    decreases |journal|
  {
    if journal == [] then 0
    else
      var last := journal[|journal| - 1];
      Attempts(journal[..|journal| - 1], n) + (if last.Prepared? && last.of == n then 1 else 0)
  }

  /** No submission is attempted more than once more than its retries. */
  lemma {:induction false} WithinBudget(retries: seq<nat>, policy: Policy, journal: seq<Deed>, n: nat)
    requires Orderly(retries, policy, journal)
    ensures n > StandingOf(journal).answers ==> Attempts(journal, n) == 0
    ensures n == StandingOf(journal).answers ==> Attempts(journal, n) == StandingOf(journal).attempts
    ensures Attempts(journal, n) > 0 ==> n < |retries| && Attempts(journal, n) <= retries[n] + 1
    decreases |journal|
  {
    if journal != [] {
      OnePast(retries, policy, journal);
      WithinBudget(retries, policy, journal[..|journal| - 1], n);
    }
  }

  /**
   An operation in flight is that of the submission being worked on, let go
   and polled to no known outcome; or of one answered unknown, once a
   shutdown was seen.
   */
  predicate Sound(s: Standing) {
    && (s.inFlight ==> s.letGo || s.stopping)
    && (s.letGo ==> s.attempts > 0 && s.fail.None? && (s.inFlight <==> s.poll.None? || s.poll.value.Unknown?))
    && (!s.letGo ==> s.poll.None?)
    && (s.last.Some? && s.last.value.Prepared? ==>
          s.attempts > 0 && !s.letGo && !s.inFlight && (s.last.value.preparing.Ready? ==> s.fail.None?))
  }

  lemma SendingIsSound(retries: seq<nat>, policy: Policy, s: Standing, deed: Deed)
    requires Sound(s) && Follows(retries, policy, s, deed) && (deed.Prepared? || deed.Sent? || deed.Paused?)
    ensures Sound(After(s, deed))
  {
  }

  lemma RestIsSound(retries: seq<nat>, policy: Policy, s: Standing, deed: Deed)
    requires Sound(s) && Follows(retries, policy, s, deed) && !deed.Prepared? && !deed.Sent? && !deed.Paused?
    ensures Sound(After(s, deed))
  {
  }

  lemma {:induction false} OneAtATime(retries: seq<nat>, policy: Policy, journal: seq<Deed>)
    requires Orderly(retries, policy, journal)
    ensures Sound(StandingOf(journal))
    decreases |journal|
  {
    if journal != [] {
      OnePast(retries, policy, journal);
      var past, last := journal[..|journal| - 1], journal[|journal| - 1];
      OneAtATime(retries, policy, past);
      if last.Prepared? || last.Sent? || last.Paused? { SendingIsSound(retries, policy, StandingOf(past), last); }
      else { RestIsSound(retries, policy, StandingOf(past), last); }
    }
  }

  /** Once a submission is answered with an outcome that is known, nothing of the key's is in flight. */
  lemma KnownLeavesNothingOpen(retries: seq<nat>, policy: Policy, journal: seq<Deed>, i: nat)
    requires Orderly(retries, policy, journal) && i < |journal|
    requires journal[i].Answered? && journal[i].answer.Done? && !journal[i].answer.outcome.Unknown?
    ensures !StandingOf(journal[..i + 1]).inFlight
  {
    OrderlyPrefix(retries, policy, journal, i);
    OneAtATime(retries, policy, journal[..i]);
    assert InPlace(retries, policy, journal, i);
    assert journal[..i + 1][..i] == journal[..i];
  }

  lemma {:induction false} Rises(journal: seq<Deed>, i: nat)
    requires i <= |journal|
    ensures StandingOf(journal[..i]).answers <= StandingOf(journal).answers
    ensures StandingOf(journal[..i]).stopping ==> StandingOf(journal).stopping
    decreases |journal|
  {
    if i < |journal| {
      assert journal[..|journal| - 1][..i] == journal[..i];
      Rises(journal[..|journal| - 1], i);
    } else {
      assert journal[..i] == journal;
    }
  }

  /** Nothing is sent but right after it was prepared. */
  lemma SentAfterPrepared(retries: seq<nat>, policy: Policy, journal: seq<Deed>, j: nat)
    requires Orderly(retries, policy, journal) && j < |journal| && journal[j].Sent?
    ensures j > 0 && journal[j - 1].Prepared?
  {
    assert InPlace(retries, policy, journal, j);
  }

  /**
   An unknown outcome reaches the caller only once a shutdown was seen, and
   the key is never used again after it: nothing is prepared, and nothing is
   sent, against a sequence number it may yet consume.
   */
  lemma UnknownLeavesTheKeyUnused(retries: seq<nat>, policy: Policy, journal: seq<Deed>, i: nat)
    requires Orderly(retries, policy, journal) && i < |journal|
    requires journal[i].Answered? && journal[i].answer.Done? && journal[i].answer.outcome.Unknown?
    ensures StandingOf(journal[..i]).stopping
    ensures forall j :: i < j < |journal| ==> !journal[j].Prepared? && !journal[j].Sent?
  {
    assert InPlace(retries, policy, journal, i);
    forall j | i < j < |journal| ensures !journal[j].Prepared? {
      assert InPlace(retries, policy, journal, j);
      assert journal[..j][..i] == journal[..i];
      Rises(journal[..j], i);
    }
    forall j | i < j < |journal| ensures !journal[j].Sent? {
      if journal[j].Sent? { SentAfterPrepared(retries, policy, journal, j); }
    }
  }

  /** Submissions are answered in the order they were enqueued, each once, and nothing is done for one afterwards. */
  lemma AnsweredIsOver(retries: seq<nat>, policy: Policy, journal: seq<Deed>, i: nat, j: nat)
    requires Orderly(retries, policy, journal) && i < j < |journal| && journal[i].Answered?
    ensures !journal[j].Stopping? ==> journal[j].of > journal[i].of
  {
    assert InPlace(retries, policy, journal, i);
    assert InPlace(retries, policy, journal, j);
    assert journal[..j][..i + 1] == journal[..i + 1] && journal[..i + 1][..i] == journal[..i];
    Rises(journal[..j], i + 1);
  }

  lemma {:induction false} SentIsLetGo(retries: seq<nat>, policy: Policy, journal: seq<Deed>, j: nat)
    requires Orderly(retries, policy, journal) && j < |journal| && journal[j].Sent? && !journal[j].sending.Turned?
    requires journal[j].of == StandingOf(journal).answers
    ensures StandingOf(journal).letGo
    decreases |journal|
  {
    OnePast(retries, policy, journal);
    var past := journal[..|journal| - 1];
    if j < |past| {
      assert InPlace(retries, policy, journal, j) && past[..j] == journal[..j];
      Rises(past, j);
      SentIsLetGo(retries, policy, past, j);
    }
  }

  lemma FailedIsNotLetGo(retries: seq<nat>, policy: Policy, s: Standing, deed: Deed)
    requires Follows(retries, policy, s, deed) && deed.Answered? && !deed.answer.Done?
    ensures !s.letGo && deed.of == s.answers
  {
  }

  /**
   A submission answered with a failure, or with the shutdown, never left:
   every envelope of it, ever, was refused.
   */
  lemma FailureSentNothing(retries: seq<nat>, policy: Policy, journal: seq<Deed>, i: nat, j: nat)
    requires Orderly(retries, policy, journal) && i < |journal| && j < |journal|
    requires journal[i].Answered? && !journal[i].answer.Done?
    requires journal[j].Sent? && journal[j].of == journal[i].of
    ensures journal[j].sending.Turned?
  {
    assert InPlace(retries, policy, journal, i);
    FailedIsNotLetGo(retries, policy, StandingOf(journal[..i]), journal[i]);
    if i < j {
      AnsweredIsOver(retries, policy, journal, i, j);
    } else if !journal[j].sending.Turned? {
      OrderlyPrefix(retries, policy, journal, i);
      assert journal[..i][j] == journal[j];
      SentIsLetGo(retries, policy, journal[..i], j);
    }
  }

  /** What the executor is told. */
  function Told(answer: Answer): QueueAnswer {
    match answer
    case Done(outcome) => Outcome(outcome)
    case ShutDown => QueueShuttingDown
    case Failing(fail) =>
      match fail
      case SequenceTaken => BadSequence
      case SimulationRefused(code) => PrepareRefused(code)
      case Rejected => QueueChainError
      case Unreached => QueueChainError
      case RestoreUnresolved => QueueChainError
      case Unbuildable => QueueChainError
  }

  /**
   What the executor settles by is what the chain said: an answer that
   landed or may have is of an envelope let go, and its last poll; after any
   other answer nothing is in flight, unless a shutdown was seen.
   */
  lemma TellsWhatLanded(retries: seq<nat>, policy: Policy, journal: seq<Deed>, i: nat)
    requires Orderly(retries, policy, journal) && i < |journal| && journal[i].Answered?
    ensures var s := StandingOf(journal[..i]);
      && (LandedAnswer(Told(journal[i].answer)) <==> s.letGo && s.poll.Some? && MayHaveLanded(s.poll.value))
      && (!LandedAnswer(Told(journal[i].answer)) ==> !s.inFlight || s.stopping)
  {
    assert InPlace(retries, policy, journal, i);
    OrderlyPrefix(retries, policy, journal, i);
    OneAtATime(retries, policy, journal[..i]);
  }

  // ----- the restore ------------------------------------------------------

  /** The rule as the queue states it: nothing is prepared while any transaction of the key's is unresolved. */
  ghost predicate PreparesAlone(journal: seq<Deed>) {
    forall i :: 0 <= i < |journal| && journal[i].Prepared? ==>
      !StandingOf(journal[..i]).inFlight && !StandingOf(journal[..i]).restoreLoose
  }

  predicate LeavesRestore(deed: Deed) { deed.Prepared? && deed.preparing == Unready(RestoreUnresolved) }

  lemma {:induction false} LooseSince(journal: seq<Deed>) returns (i: nat)
    requires StandingOf(journal).restoreLoose
    ensures i < |journal| && LeavesRestore(journal[i])
    decreases |journal|
  {
    var past := journal[..|journal| - 1];
    if StandingOf(past).restoreLoose { i := LooseSince(past); } else { i := |past|; }
  }

  /** A submission whose restore was left unresolved is never tried again: it waits for its answer. */
  lemma {:induction false} LooseWaits(retries: seq<nat>, policy: Policy, journal: seq<Deed>, i: nat)
    requires Orderly(retries, policy, journal) && i < |journal| && LeavesRestore(journal[i])
    ensures var s := StandingOf(journal);
      && s.restoreLoose && journal[i].of <= s.answers
      && (s.answers == journal[i].of ==>
            && s.attempts > 0 && s.fail == Some(RestoreUnresolved) && !s.letGo
            && (s.last.Some? && s.last.value.Prepared? ==> s.last.value.preparing.Unready?))
    decreases |journal|
  {
    OnePast(retries, policy, journal);
    if i < |journal| - 1 { LooseWaits(retries, policy, journal[..|journal| - 1], i); }
  }

  /** And its answer is all that comes before the next is prepared, or a shutdown is seen. */
  lemma {:induction false} NothingBetween(retries: seq<nat>, policy: Policy, journal: seq<Deed>, i: nat)
    requires Orderly(retries, policy, journal) && i < |journal| && LeavesRestore(journal[i])
    requires forall j :: i < j < |journal| ==> !journal[j].Stopping? && !journal[j].Prepared?
    ensures var s := StandingOf(journal);
      && !s.stopping && !s.letGo && s.last.Some?
      && (s.answers == journal[i].of || (s.answers == journal[i].of + 1 && s.attempts == 0 && s.last.value.Answered?))
    decreases |journal|
  {
    OnePast(retries, policy, journal);
    if i < |journal| - 1 {
      LooseWaits(retries, policy, journal[..|journal| - 1], i);
      NothingBetween(retries, policy, journal[..|journal| - 1], i);
    }
  }

  /** The shutdown flag was read set in between. */
  ghost predicate StopsBetween(journal: seq<Deed>, i: nat, j: nat)
    requires j <= |journal|
  {
    exists k :: i < k < j && journal[k].Stopping?
  }

  /**
   The guard: no later submission is come to, or none until the shutdown
   flag was read set. Of the last submission that is so of itself.
   */
  ghost predicate StopsFirst(journal: seq<Deed>, i: nat)
    requires i < |journal| && !journal[i].Stopping?
  {
    forall j :: i < j < |journal| && !journal[j].Stopping? && journal[j].of > journal[i].of ==>
      StopsBetween(journal, i, j)
  }

  lemma StoppedSince(retries: seq<nat>, policy: Policy, journal: seq<Deed>, i: nat, j: nat)
    requires Orderly(retries, policy, journal) && j <= |journal| && StopsBetween(journal, i, j)
    ensures StandingOf(journal[..j]).stopping
  {
    var k :| i < k < j && journal[k].Stopping?;
    assert journal[..j][..k + 1] == journal[..k + 1] && journal[..k + 1][..k] == journal[..k];
    Rises(journal[..j], k + 1);
  }

  /** A preparation beside a loose restore is of a later submission, and no shutdown was seen before it. */
  lemma PreparedOver(retries: seq<nat>, policy: Policy, journal: seq<Deed>, i: nat, j: nat)
    requires Orderly(retries, policy, journal) && i < j < |journal|
    requires LeavesRestore(journal[i]) && journal[j].Prepared?
    ensures journal[j].of > journal[i].of && StandingOf(journal[..j]).restoreLoose && !StopsBetween(journal, i, j)
  {
    assert InPlace(retries, policy, journal, j);
    OrderlyPrefix(retries, policy, journal, j);
    assert journal[..j][i] == journal[i];
    LooseWaits(retries, policy, journal[..j], i);
    if StopsBetween(journal, i, j) { StoppedSince(retries, policy, journal, i, j); }
  }

  /** What first is done for a later submission, if no shutdown was seen, is a preparation. */
  lemma PreparesOver(retries: seq<nat>, policy: Policy, journal: seq<Deed>, i: nat, j: nat) returns (k: nat)
    requires Orderly(retries, policy, journal) && i < j < |journal| && LeavesRestore(journal[i])
    requires !journal[j].Stopping? && journal[j].of > journal[i].of && !StopsBetween(journal, i, j)
    ensures i < k <= j && journal[k].Prepared?
  {
    if exists k :: i < k < j && journal[k].Prepared? {
      k :| i < k < j && journal[k].Prepared?;
    } else {
      k := j;
      assert InPlace(retries, policy, journal, j);
      OrderlyPrefix(retries, policy, journal, j);
      assert journal[..j][i] == journal[i];
      forall m | i < m < j ensures !journal[..j][m].Stopping? && !journal[..j][m].Prepared? {}
      NothingBetween(retries, policy, journal[..j], i);
    }
  }

  /**
   The rule is kept exactly when, after every restore left unresolved, no
   later submission was come to before the shutdown flag was read set.
   */
  lemma PreparesAloneExactly(retries: seq<nat>, policy: Policy, journal: seq<Deed>)
    requires Orderly(retries, policy, journal)
    ensures PreparesAlone(journal) <==>
      forall i :: 0 <= i < |journal| && LeavesRestore(journal[i]) ==> StopsFirst(journal, i)
  {
    if PreparesAlone(journal) {
      forall i, j | 0 <= i < j < |journal| && LeavesRestore(journal[i]) && !journal[j].Stopping?
                    && journal[j].of > journal[i].of
        ensures StopsBetween(journal, i, j)
      {
        if !StopsBetween(journal, i, j) {
          var k := PreparesOver(retries, policy, journal, i, j);
          PreparedOver(retries, policy, journal, i, k);
        }
      }
    }
    if forall i :: 0 <= i < |journal| && LeavesRestore(journal[i]) ==> StopsFirst(journal, i) {
      forall j | 0 <= j < |journal| && journal[j].Prepared?
        ensures !StandingOf(journal[..j]).inFlight && !StandingOf(journal[..j]).restoreLoose
      {
        assert InPlace(retries, policy, journal, j);
        if StandingOf(journal[..j]).restoreLoose {
          var i := LooseSince(journal[..j]);
          PreparedOver(retries, policy, journal, i, j);
        }
      }
    }
  }

  lemma {:induction false} AttemptsAre(journal: seq<Deed>, n: nat)
    ensures Attempts(journal, n) > 0 <==> exists i :: 0 <= i < |journal| && journal[i].Prepared? && journal[i].of == n
    decreases |journal|
  {
    if journal != [] {
      var past, last := journal[..|journal| - 1], journal[|journal| - 1];
      AttemptsAre(past, n);
      forall i | 0 <= i < |past| ensures journal[i] == past[i] {}
      if Attempts(past, n) > 0 {
        var i :| 0 <= i < |past| && past[i].Prepared? && past[i].of == n;
        assert journal[i].Prepared?;
      }
    }
  }

  lemma {:induction false} EachIsAnswered(retries: seq<nat>, policy: Policy, journal: seq<Deed>, n: nat)
    returns (i: nat)
    requires Orderly(retries, policy, journal) && n < StandingOf(journal).answers
    ensures i < |journal| && journal[i].Answered? && journal[i].of == n
    decreases |journal|
  {
    OnePast(retries, policy, journal);
    var past := journal[..|journal| - 1];
    if n < StandingOf(past).answers { i := EachIsAnswered(retries, policy, past, n); } else { i := |past|; }
  }

  /** The attempts made at a submission by the time it is answered: none exactly where it is answered the shutdown. */
  lemma ShutDownExactly(retries: seq<nat>, policy: Policy, journal: seq<Deed>, i: nat)
    requires Orderly(retries, policy, journal) && i < |journal| && journal[i].Answered?
    ensures journal[i].answer.ShutDown? <==>
      forall j :: 0 <= j < i && journal[j].Prepared? ==> journal[j].of != journal[i].of
  {
    var past, n := journal[..i], journal[i].of;
    assert InPlace(retries, policy, journal, i);
    OrderlyPrefix(retries, policy, journal, i);
    OneAtATime(retries, policy, past);
    WithinBudget(retries, policy, past, n);
    AttemptsAre(past, n);
    forall j | 0 <= j < i ensures past[j] == journal[j] {}
  }

  /** Everything answered for a later submission is the shutdown. */
  ghost predicate TurnsAway(journal: seq<Deed>, i: nat)
    requires i < |journal| && !journal[i].Stopping?
  {
    forall j :: i < j < |journal| && journal[j].Answered? && journal[j].of > journal[i].of ==>
      journal[j].answer.ShutDown?
  }

  /** Deeds come in the order of their submissions. */
  lemma ComeInOrder(retries: seq<nat>, policy: Policy, journal: seq<Deed>, i: nat, j: nat)
    requires Orderly(retries, policy, journal) && i <= j < |journal| && !journal[i].Stopping? && !journal[j].Stopping?
    ensures journal[i].of <= journal[j].of
  {
    assert InPlace(retries, policy, journal, i) && InPlace(retries, policy, journal, j);
    assert journal[..j][..i] == journal[..i];
    Rises(journal[..j], i);
  }

  lemma StopsThenTurnsAway(retries: seq<nat>, policy: Policy, journal: seq<Deed>, i: nat)
    requires Orderly(retries, policy, journal) && i < |journal| && LeavesRestore(journal[i]) && StopsFirst(journal, i)
    ensures TurnsAway(journal, i)
  {
    forall j | i < j < |journal| && journal[j].Answered? && journal[j].of > journal[i].of
      ensures journal[j].answer.ShutDown?
    {
      ShutDownExactly(retries, policy, journal, j);
      if !journal[j].answer.ShutDown? {
        var k :| 0 <= k < j && journal[k].Prepared? && journal[k].of == journal[j].of;
        if k <= i { ComeInOrder(retries, policy, journal, k, i); }
        PreparedOver(retries, policy, journal, i, k);
      }
    }
  }

  lemma TurnsAwayThenStops(retries: seq<nat>, policy: Policy, journal: seq<Deed>, i: nat)
    requires Orderly(retries, policy, journal) && StandingOf(journal).answers == |retries|
    requires i < |journal| && LeavesRestore(journal[i]) && TurnsAway(journal, i)
    ensures StopsFirst(journal, i)
  {
    forall j | i < j < |journal| && !journal[j].Stopping? && journal[j].of > journal[i].of
      ensures StopsBetween(journal, i, j)
    {
      if !StopsBetween(journal, i, j) {
        var k := PreparesOver(retries, policy, journal, i, j);
        PreparedOver(retries, policy, journal, i, k);
        assert InPlace(retries, policy, journal, k);
        var m := EachIsAnswered(retries, policy, journal, journal[k].of);
        if m < k { AnsweredIsOver(retries, policy, journal, m, k); }
        ShutDownExactly(retries, policy, journal, m);
      }
    }
  }

  /**
   Where every submission was answered, that is to say: exactly when every
   one after a restore left unresolved was turned away for the shutdown.
   */
  lemma TurnsAwayExactly(retries: seq<nat>, policy: Policy, journal: seq<Deed>)
    requires Orderly(retries, policy, journal) && StandingOf(journal).answers == |retries|
    ensures PreparesAlone(journal) <==>
      forall i :: 0 <= i < |journal| && LeavesRestore(journal[i]) ==> TurnsAway(journal, i)
  {
    PreparesAloneExactly(retries, policy, journal);
    forall i | 0 <= i < |journal| && LeavesRestore(journal[i])
      ensures StopsFirst(journal, i) <==> TurnsAway(journal, i)
    {
      if StopsFirst(journal, i) { StopsThenTurnsAway(retries, policy, journal, i); }
      if TurnsAway(journal, i) { TurnsAwayThenStops(retries, policy, journal, i); }
    }
  }

  /** A submission whose restore was left unresolved, and its answer. */
  function RestoreLetLoose(): seq<Deed> {
    [Prepared(0, Unready(RestoreUnresolved)), Answered(0, Failing(RestoreUnresolved))]
  }

  lemma LetsLoose(policy: Policy)
    ensures Orderly([2, 2], policy, RestoreLetLoose())
    ensures var s := StandingOf(RestoreLetLoose());
      s.answers == 1 && s.attempts == 0 && s.restoreLoose && !s.inFlight && !s.letGo && !s.stopping
  {
    var first := [Prepared(0, Unready(RestoreUnresolved))];
    assert [] + first == first;
    OrderlyNext([2, 2], policy, [], first[0]);
    OrderlyNext([2, 2], policy, first, Answered(0, Failing(RestoreUnresolved)));
    assert first + [Answered(0, Failing(RestoreUnresolved))] == RestoreLetLoose();
  }

  /** And it need not be: a restore left unresolved fails its submission, and the next is prepared over it. */
  lemma ALooseRestoreHoldsNothing(policy: Policy)
    ensures var journal := RestoreLetLoose() + [Prepared(1, Ready(7))];
      Orderly([2, 2], policy, journal) && !PreparesAlone(journal)
  {
    LetsLoose(policy);
    var before, next := RestoreLetLoose(), Prepared(1, Ready(7));
    OrderlyNext([2, 2], policy, before, next);
    var journal := before + [next];
    assert journal[..2] == before && journal[2] == next;
  }

  // ----- the worker -------------------------------------------------------

  class Worker {
    /** The retries of the submissions enqueued, in order. */
    const retries: seq<nat>
    const policy: Policy
    ghost var journal: seq<Deed>
    ghost var now: Standing
    /** The shutdown flag, which once set stays set. */
    var requested: bool
    /** How many more polls the process lives for. */
    var life: nat

    ghost predicate Valid()
      reads this
    {
      Orderly(retries, policy, journal) && now == StandingOf(journal) && (requested <==> now.stopping)
    }

    constructor (retries: seq<nat>, policy: Policy, life: nat)
      ensures Valid() && journal == [] && now == IDLE && this.retries == retries && this.policy == policy
    {
      this.retries, this.policy, this.life := retries, policy, life;
      journal, now, requested := [], IDLE, false;
    }

    ghost method Does(deed: Deed)
      requires Valid() && Follows(retries, policy, now, deed) && !deed.Stopping?
      modifies `journal, `now
      ensures Valid() && now == After(old(now), deed)
    {
      OrderlyNext(retries, policy, journal, deed);
      journal, now := journal + [deed], After(now, deed);
    }

    /** Reads the shutdown flag. */
    method Stops() returns (stopping: bool)
      requires Valid()
      modifies `requested, `journal, `now
      ensures Valid() && stopping == requested
      ensures now == if stopping then After(old(now), Stopping) else old(now)
    {
      stopping := *;
      stopping := stopping || requested;
      requested := stopping;
      if stopping {
        OrderlyNext(retries, policy, journal, Stopping);
        journal, now := journal + [Stopping], After(now, Stopping);
      }
    }

    /** Ready for an attempt: none made before, or one that sent nothing, paused over. */
    ghost predicate Poised(n: nat, attempts: nat)
      reads this
    {
      && Valid() && n == now.answers < |retries| && now.attempts == attempts
      && !now.letGo && !now.inFlight && !now.stopping
      && (attempts > 0 ==>
            && now.fail.Some? && SentNothing(now.fail.value)
            && now.last == Some(Paused(n, PauseOf(policy, attempts - 1))))
    }

    /** What an attempt came to. */
    ghost predicate CameTo(n: nat, attempts: nat, answer: Answer)
      reads this
    {
      && Valid() && n == now.answers < |retries| && now.attempts == attempts > 0
      && match answer
         case Done(outcome) => now.letGo && now.poll == Some(outcome) && (outcome.Unknown? ==> now.stopping)
         case Failing(fail) => !now.letGo && !now.inFlight && !now.stopping && now.fail == Some(fail)
         case ShutDown => false
    }

    /** Prepare, send, and resolve; a send whose answer is lost is resolved by its hash, and never sent again. */
    method Attempt(n: nat, ghost attempts: nat) returns (alive: bool, answer: Answer)
      requires Poised(n, attempts) && attempts <= retries[n]
      modifies `journal, `now, `requested, `life
      ensures Valid() && (if alive then CameTo(n, attempts + 1, answer) else life == 0)
    {
      var preparing: Preparing := *;
      Does(Prepared(n, preparing));
      if preparing.Unready? { return true, Failing(preparing.fail); }
      var sending: Sending := *;
      if sending.Turned? {
        var taken: bool := *;
        sending := Turned(if taken then SequenceTaken else Rejected);
      }
      Does(Sent(n, sending));
      if sending.Turned? { return true, Failing(sending.fail); }
      var outcome;
      alive, outcome := Resolve(n, attempts + 1, preparing.hash);
      answer := Done(outcome);
    }

    /** Polls until the outcome is known; an unknown one comes back only for a shutdown that was requested. */
    method Resolve(n: nat, ghost attempts: nat, hash: nat) returns (alive: bool, outcome: TxOutcome)
      requires Valid() && n == now.answers < |retries| && now.attempts == attempts > 0 && now.letGo && now.inFlight
      modifies `journal, `now, `requested, `life
      ensures Valid() && (if alive then CameTo(n, attempts, Done(outcome)) else life == 0)
    {
      outcome := Unknown(hash);
      while life > 0
        invariant Valid() && n == now.answers && now.attempts == attempts && now.letGo && now.inFlight
        decreases life
      {
        life := life - 1;
        var back;
        back, outcome := Poll(n, attempts);
        if back { return true, outcome; }
      }
      alive := false;
    }

    /** One poll, and the pause after one that knows nothing; whether to go back with what it said. */
    method Poll(n: nat, ghost attempts: nat) returns (back: bool, outcome: TxOutcome)
      requires Valid() && n == now.answers < |retries| && now.attempts == attempts > 0 && now.letGo && now.inFlight
      modifies `journal, `now, `requested
      ensures Valid() && n == now.answers && now.attempts == attempts && now.letGo && now.poll == Some(outcome)
      ensures if back then outcome.Unknown? ==> now.stopping else outcome.Unknown? && now.inFlight
    {
      outcome := *;
      Does(Polled(n, outcome));
      if !outcome.Unknown? { return true, outcome; }
      back := Stops();
      if !back { back := Stops(); }
    }

    /** One submission, to an answer its caller can act on: retried only while nothing was sent and budget lasts. */
    method SubmitUntilSettled(n: nat) returns (alive: bool, answer: Answer)
      requires Poised(n, 0)
      modifies `journal, `now, `requested, `life
      ensures Valid()
      ensures if alive then n == now.answers && MayAnswer(retries[n], now, answer) else life == 0
    {
      var left, pause := retries[n], Min(policy.initial, policy.max);
      ghost var attempts := 0;
      FirstPause(policy);
      while true
        invariant Poised(n, attempts) && attempts + left == retries[n] && pause == PauseOf(policy, attempts)
        decreases left
      {
        alive, answer := Attempt(n, attempts);
        if !alive { return; }
        attempts := attempts + 1;
        if !answer.Failing? || !SentNothing(answer.fail) || left == 0 { return; }
        left := left - 1;
        var stopping := Pauses(n, attempts, pause, answer.fail);
        if stopping { return; }
        PausesDouble(policy, attempts - 1);
        pause := Min(pause * 2, policy.max);
      }
    }

    /** The pause before a retry, cut short by a shutdown. */
    method Pauses(n: nat, ghost attempts: nat, pause: nat, fail: ChainFail) returns (stopping: bool)
      requires CameTo(n, attempts, Failing(fail)) && SentNothing(fail) && attempts <= retries[n]
      requires pause == PauseOf(policy, attempts - 1)
      modifies `journal, `now, `requested
      ensures Valid() && n == now.answers
      ensures if stopping then MayAnswer(retries[n], now, Failing(fail)) else Poised(n, attempts)
    {
      Does(Paused(n, pause));
      stopping := Stops();
    }

    /** The queue: one submission after another, until all are answered or the process is cut off. */
    method Run()
      requires Valid() && now == IDLE
      modifies `journal, `now, `requested, `life
      ensures Valid() && (now.answers == |retries| || life == 0)
    {
      for n := 0 to |retries|
        invariant Valid() && n == now.answers && now.attempts == 0 && !now.letGo
      {
        OneAtATime(retries, policy, journal);
        var stopping := Stops();
        if stopping {
          Does(Answered(n, ShutDown));
        } else {
          var alive, answer := SubmitUntilSettled(n);
          if !alive { return; }
          Does(Answered(n, answer));
        }
      }
    }
  }

  lemma FirstPause(policy: Policy)
    ensures PauseOf(policy, 0) == Min(policy.initial, policy.max)
  {
  }

  lemma PausesDouble(policy: Policy, k: nat)
    ensures PauseOf(policy, k + 1) == Min(PauseOf(policy, k) * 2, policy.max)
  {
    assert policy.initial * PowerOfTwo(k + 1) == policy.initial * PowerOfTwo(k) * 2;
  }
}
