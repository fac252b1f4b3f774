/**
 What one call to the executor may answer, against what its reservation
 becomes: the chain's answer decides the settlement, whatever fails after it.
 */
module Settlements {
  import opened Types
  import opened Machine
  import opened Execution

  /**
   A fill's reservation is consumed exactly when the queue answered with an
   outcome that landed or may have; and the caller is told so, unless the
   store failed to write the hash afterwards, when it is consumed all the
   same.
   */
  lemma ConsumedAsTheChainAnswered(c: Config, live: bool, armed: bool, talk: Talk)
    requires FillTalk(c, live, armed, talk)
    ensures var answer := FillAnswerOf(c, live, armed, talk);
      && (Spends(talk) <==>
            || (answer.Recorded? && answer.submission.Some? && MayHaveLanded(answer.submission.value))
            || (answer == FillFailed(StoreError) && talk.named == Some(HashWriteFailed)
                && talk.sent.value.Outcome? && MayHaveLanded(talk.sent.value.outcome)))
      && (talk.named == Some(HashWriteFailed) ==> answer == FillFailed(StoreError))
  {
  }

  /** An unwind's likewise; there is no row to lose. */
  lemma UnwindConsumedAsTheChainAnswered(c: Config, live: bool, armed: bool, plan: UnwindPlan, talk: Talk)
    requires UnwindTalk(c, live, armed, plan, talk)
    ensures var answer := UnwindAnswerOf(c, live, armed, plan, talk);
      Spends(talk) <==> answer.Submitted? && MayHaveLanded(answer.outcome)
  {
  }

  /** What reaches the queue: armed, keyed, live, judged to pass, and for a fill recorded first. */
  lemma SendsOnlyWhatItShould(c: Config, live: bool, armed: bool, talk: Talk)
    requires FillTalk(c, live, armed, talk)
    ensures talk.sent.Some? ==>
      && armed && live && !c.executorDryRun && c.signer.Some? && talk.id.Some?
      && talk.judgment.Some? && (talk.judgment.value.Accepts? || talk.judgment.value.NeedsRestore?)
    ensures talk.judgment.Some? && (talk.judgment.value.Refuses? || talk.judgment.value.SimulationFailed?)
      ==> talk.id.None? && talk.sent.None?
    ensures (talk.sent.Some? && talk.sent.value.Outcome?) <==> talk.named.Some?
  {
  }

  /** The health refusals alone are worth planning again, whether the simulation or the queue's prepare gave them. */
  lemma OnlyHealthRefusalsReplan(c: Config, live: bool, armed: bool, talk: Talk, code: u32)
    requires FillTalk(c, live, armed, talk)
    ensures FillAnswerOf(c, live, armed, talk) == Replan(code) <==>
      && (code == INVALID_HF || code == MIN_COLLATERAL_NOT_MET)
      && Stopped(c, live, armed, talk).None?
      && (talk.judgment == Some(Refuses(Some(code))) || talk.sent == Some(PrepareRefused(Some(code))))
  {
  }
}
