/** Values shared by the agreement components: steps, proposal-values, votes and
    the thresholds of a step. */
module AgreementTypes {

  type Address = nat
  type Round = nat
  type Period = nat
  type Step = nat

  const PROPOSE: Step := 0
  const SOFT: Step := 1
  const CERT: Step := 2
  const NEXT: Step := 3
  const LATE: Step := 253
  const REDO: Step := 254
  const DOWN: Step := 255

  datatype ProposalValue = ProposalValue(
    originalPeriod: Period,
    originalProposer: Address,
    blockDigest: nat,
    encodingDigest: nat)

  /** The zero proposal-value. */
  const BOTTOM := ProposalValue(0, 0, 0, 0)

  datatype RawVote = RawVote(
    sender: Address,
    round: Round,
    period: Period,
    step: Step,
    proposal: ProposalValue)

  /** An ideal signature: it names its signer and the message it covers. */
  datatype Signature = Signature(signer: Address, message: RawVote)

  /** A verified vote; weight is the weight of the sender's credential. */
  datatype Vote = Vote(r: RawVote, weight: nat, sig: Signature)

  /** Two votes of one sender, in one step, for two values. */
  datatype EquivocationVote = EquivocationVote(
    sender: Address,
    round: Round,
    period: Period,
    step: Step,
    weight: nat,
    proposal0: ProposalValue,
    proposal1: ProposalValue,
    sig0: Signature,
    sig1: Signature)
  {
    function V0(): Vote {
      Vote(RawVote(sender, round, period, step, proposal0), weight, sig0)
    }

    function V1(): Vote {
      Vote(RawVote(sender, round, period, step, proposal1), weight, sig1)
    }
  }

  /** The committee thresholds of the consensus parameters. */
  datatype Params = Params(soft: nat, cert: nat, next: nat, late: nat, redo: nat, down: nat)

  function Threshold(s: Step, params: Params): nat {
    if s == PROPOSE then 0
    else if s == SOFT then params.soft
    else if s == CERT then params.cert
    else if s == LATE then params.late
    else if s == REDO then params.redo
    else if s == DOWN then params.down
    else params.next
  }

  predicate ReachesQuorum(s: Step, params: Params, weight: nat) {
    if s == PROPOSE then false
    else if s == SOFT then weight >= params.soft
    else if s == CERT then weight >= params.cert
    else if s == LATE then weight >= params.late
    else if s == REDO then weight >= params.redo
    else if s == DOWN then weight >= params.down
    else weight >= params.next
  }

  /** Quorum tests compare against the step's threshold, except that nothing is a
      quorum of the propose step. */
  lemma QuorumIsThreshold(s: Step, params: Params, weight: nat)
    ensures ReachesQuorum(s, params, weight) <==> s != PROPOSE && weight >= Threshold(s, params)
  {
  }

  /** The votes a tracker may be fed: those of one (round, period, step) other than
      propose, each carrying the weight that the step's sortition gives its sender.
      threshold is Threshold(step, params) for the round's parameters. */
  datatype Committee = Committee(
    round: Round,
    period: Period,
    step: Step,
    threshold: nat,
    weight: Address -> nat)
  {
    predicate Quorum(n: nat) { n >= threshold }

    /** v is a vote of this step that passes verification: its sender was selected and
        signed it, and soft and cert votes are not for bottom. */
    predicate Genuine(v: Vote) {
      && v.r.round == round && v.r.period == period && v.r.step == step
      && v.weight == weight(v.r.sender) && v.weight > 0
      && v.sig == Signature(v.r.sender, v.r)
      && (step == SOFT || step == CERT ==> v.r.proposal != BOTTOM)
    }

    predicate GenuinePair(e: EquivocationVote) {
      && Genuine(e.V0()) && Genuine(e.V1()) && e.proposal0 != e.proposal1
    }
  }
}
