/** The proposal side of one round: proposal-votes, payloads, the staged value of each
    period and the pinned value. */
module Proposals {
  import opened Options
  import opened AgreementTypes

  /** A verified vote of the propose step; a smaller credential wins. */
  datatype ProposalVote = ProposalVote(
    sender: Address,
    round: Round,
    period: Period,
    proposal: ProposalValue,
    credential: int)

  // ---------------------------------------------------------------- lowest credential of a period

  datatype Seeker = Seeker(filled: bool, credential: int, proposal: ProposalValue, frozen: bool)
  {
    /** None when the seeker is frozen or the vote is not lower. */
    function Accept(v: ProposalVote): Option<Seeker> {
      if frozen then None
      else if filled && !(v.credential < credential) then None
      else Some(Seeker(true, v.credential, v.proposal, false))
    }

    function Freeze(): Seeker { this.(frozen := true) }
  }

  /** What a period's proposal tracker and period vote tracker remember. */
  datatype PeriodState = PeriodState(
    duplicate: set<Address>,
    freezer: Seeker,
    staging: ProposalValue,
    cachedBottom: bool,
    cachedProposal: ProposalValue)

  const FRESH_PERIOD := PeriodState({}, Seeker(false, 0, BOTTOM, false), BOTTOM, false, BOTTOM)

  /** A proposal-vote at the tracker of its period: its new state, and whether the vote
      was accepted. */
  function TrackProposal(t: PeriodState, v: ProposalVote): (PeriodState, bool) {
    if v.sender in t.duplicate then (t, false)
    else
      var seen := t.(duplicate := t.duplicate + {v.sender});
      if seen.staging != BOTTOM then (seen, false)
      else match seen.freezer.Accept(v)
           case None => (seen, false)
           case Some(s) => (seen.(freezer := s), true)
  }

  // ---------------------------------------------------------------- payloads

  datatype Authenticator = Authenticator(sender: Address, period: Period)

  /** A payload is identified by its proposal-value, so only its presence is kept. */
  datatype Assembler = Assembler(filled: bool, assembled: bool, authenticators: seq<Authenticator>)
  {
    function Pipeline(): Option<Assembler> {
      if assembled || filled then None else Some(this.(filled := true))
    }

    function Bind(): Option<Assembler> {
      if assembled then None else Some(this.(assembled := true))
    }

    function Trim(p: Period): Assembler {
      this.(authenticators := Recent(authenticators, p))
    }
  }

  const FRESH_ASSEMBLER := Assembler(false, false, [])

  function Recent(s: seq<Authenticator>, p: Period): seq<Authenticator> {
    if s == [] then []
    else (if s[0].period >= p then [s[0]] else []) + Recent(s[1..], p)
  }

  // ---------------------------------------------------------------- the store of a round

  datatype Store = Store(
    relevant: map<Period, ProposalValue>,
    pinned: ProposalValue,
    assemblers: map<ProposalValue, Assembler>)
  {
    function Get(v: ProposalValue): Assembler {
      if v in assemblers then assemblers[v] else FRESH_ASSEMBLER
    }

    predicate Assembled(v: ProposalValue) { Get(v).assembled }

    /** The values whose assemblers a trim keeps. */
    function Kept(): set<ProposalValue> {
      (set q | q in relevant :: relevant[q]) + {pinned} - {BOTTOM}
    }

    function Trim(p: Period): Store {
      this.(assemblers := map v | v in Kept() :: Get(v).Trim(p))
    }
  }

  const FRESH_STORE := Store(map[], BOTTOM, map[])

  /** An accepted proposal-vote, with the player in period now. */
  function StoreProposal(s: Store, v: ProposalVote, now: Period): Store {
    var ea := s.Get(v.proposal);
    var ea' := ea.(authenticators := ea.authenticators + [Authenticator(v.sender, v.period)]);
    s.(assemblers := s.assemblers[v.proposal := ea'],
       relevant := s.relevant[v.period := v.proposal]).Trim(now)
  }

  /** A payload that has arrived but is not validated yet. */
  function StorePayload(s: Store, v: ProposalValue): Store {
    if v !in s.assemblers then s
    else match s.assemblers[v].Pipeline()
         case None => s
         case Some(ea) => s.(assemblers := s.assemblers[v := ea])
  }

  /** A validated payload: the new store, and whether the payload was taken. */
  function BindPayload(s: Store, v: ProposalValue): (Store, bool) {
    if v !in s.assemblers then (s, false)
    else match s.assemblers[v].Bind()
         case None => (s, false)
         case Some(ea) => (s.(assemblers := s.assemblers[v := ea]), true)
  }

  /** The player is about to enter period target with starting value starting, while
      staged is staged in its current period now. */
  function OpenPeriod(s: Store, starting: ProposalValue, staged: ProposalValue, target: Period, now: Period): Store {
    var pinned := if starting != BOTTOM then starting else if staged != BOTTOM then staged else s.pinned;
    s.(pinned := pinned,
       relevant := map q | q in s.relevant && q + 1 >= target :: s.relevant[q]).Trim(now)
  }

  /** A soft threshold for v in period p: the new store, and whether v is committable. */
  function SoftReached(s: Store, v: ProposalValue, p: Period, now: Period): (Store, bool) {
    if s.Assembled(v) then (s, true)
    else (s.(assemblers := s.assemblers[v := s.Get(v)], relevant := s.relevant[p := v]).Trim(now), false)
  }
}
