/**
 * The governance subgraph's record accessors (operations/get.ts): the
 * load-or-initialise accessor for the singleton Governance record, and the
 * load-or-abort lookups for Proposal and Delegate records.
 */
module GovernanceGet {

  /** The id under which the one Governance record is stored. */
  const GOVERNANCE_ID: string := "GOVERNANCE"

  /** The governance-wide counters. delegatedVotes is a decimal in the source. */
  datatype Governance = Governance(
    id: string,
    proposals: int,
    totalTokenHolders: int,
    currentTokenHolders: int,
    currentDelegates: int,
    totalDelegates: int,
    delegatedVotesRaw: int,
    delegatedVotes: real,
    proposalsQueued: int)

  /** A proposal; its other fields are written by handlers outside this model. */
  datatype Proposal = Proposal(id: string)

  /** A delegate; its other fields are written by handlers outside this model. */
  datatype Delegate = Delegate(id: string)

  /** The result of a lookup that aborts the handler (log.critical) when the record is missing. */
  datatype Lookup<T> = Found(value: T) | Aborted(message: string)

  /** The record getGovernanceEntity builds when none is stored: the fixed id and every counter zero. */
  function FreshGovernance(): Governance
  {
    Governance(GOVERNANCE_ID, 0, 0, 0, 0, 0, 0, 0.0, 0)
  }

  /** Every counter of a Governance record is zero. */
  predicate AllZero(g: Governance)
  {
    && g.proposals == 0 && g.totalTokenHolders == 0 && g.currentTokenHolders == 0
    && g.currentDelegates == 0 && g.totalDelegates == 0 && g.delegatedVotesRaw == 0
    && g.delegatedVotes == 0.0 && g.proposalsQueued == 0
  }

  /** The governance subgraph's entity tables, each keyed by its records' ids. */
  class GovernanceStore {
    var governances: map<string, Governance>
    var proposals: map<string, Proposal>
    var delegates: map<string, Delegate>

    /** The store files every record under its own id. */
    ghost predicate Valid()
      reads this
    {
      && (forall k :: k in governances ==> governances[k].id == k)
      && (forall k :: k in proposals ==> proposals[k].id == k)
      && (forall k :: k in delegates ==> delegates[k].id == k)
    }

    constructor ()
      ensures Valid()
      ensures governances == map[] && proposals == map[] && delegates == map[]
    {
      governances, proposals, delegates := map[], map[], map[];
    }

    /**
     * getGovernanceEntity: the stored record when there is one, otherwise a
     * fresh record with every counter zero. It writes nothing (this method
     * has no modifies clause): the fresh record is not saved.
     */
    method GetGovernanceEntity() returns (g: Governance)
      requires Valid()
      ensures g.id == GOVERNANCE_ID
      ensures GOVERNANCE_ID in governances ==> g == governances[GOVERNANCE_ID]
      ensures GOVERNANCE_ID !in governances ==> AllZero(g)
    {
      if GOVERNANCE_ID in governances {
        g := governances[GOVERNANCE_ID];
      } else {
        g := FreshGovernance();
      }
    }

    /** Since getGovernanceEntity writes nothing, two calls in a row yield the same record. */
    method GetGovernanceEntityTwice() returns (first: Governance, second: Governance)
      requires Valid()
      ensures first == second
      ensures GOVERNANCE_ID !in governances ==> first == FreshGovernance()
    {
      first := GetGovernanceEntity();
      second := GetGovernanceEntity();
    }

    /** getProposal: the stored proposal, or an abort naming the missing id. */
    method GetProposal(id: string) returns (r: Lookup<Proposal>)
      requires Valid()
      ensures id in proposals <==> r.Found?
      ensures r.Found? ==> r.value == proposals[id] && r.value.id == id
      ensures r.Aborted? ==> r.message == "Proposal " + id + " not found"
    {
      if id in proposals {
        r := Found(proposals[id]);
      } else {
        r := Aborted("Proposal " + id + " not found");
      }
    }

    /** getDelegate: the stored delegate, or an abort naming the missing id. */
    method GetDelegate(id: string) returns (r: Lookup<Delegate>)
      requires Valid()
      ensures id in delegates <==> r.Found?
      ensures r.Found? ==> r.value == delegates[id] && r.value.id == id
      ensures r.Aborted? ==> r.message == "Delegate " + id + " not found"
    {
      if id in delegates {
        r := Found(delegates[id]);
      } else {
        r := Aborted("Delegate " + id + " not found");
      }
    }
  }
}
