/**
 * The block tables of node/pkg/api/blocks/queries.go: one observed block per service, and
 * the unprocessed blocks as rows of service and block number.
 */
module BlockStore {
  import opened Wrappers
  import Listener

  class Tables {
    var observed: map<string, nat>
    var unprocessed: set<(string, nat)>

    constructor ()
      ensures observed == map[] && unprocessed == {}
    {
      observed, unprocessed := map[], {};
    }

    /** What the listener of one service sees. */
    function Observed(service: string): Option<nat>
      reads this
    {
      if service in observed then Some(observed[service]) else None
    }

    function Unprocessed(service: string): (blocks: set<nat>)
      reads this
      ensures forall b :: b in blocks <==> (service, b) in unprocessed
    {
      set row | row in unprocessed && row.0 == service :: row.1
    }

    method UpsertObservedBlock(service: string, blockNumber: nat) returns (row: nat)
      modifies this`observed
      ensures Observed(service) == Listener.Raised(old(Observed(service)), blockNumber) == Some(row)
      ensures forall other :: other != service ==> Observed(other) == old(Observed(other))
    {
      row := blockNumber;
      if service in observed && observed[service] > blockNumber {
        row := observed[service];
      }
      observed := observed[service := row];
    }

    /** A VALUES list without rows is no statement; a row that exists is left as it is. */
    method InsertUnprocessedBlocks(service: string, blocks: seq<nat>) returns (ok: bool)
      modifies this`unprocessed
      ensures ok == (blocks != [])
      ensures Unprocessed(service) == old(Unprocessed(service)) + (set b | b in blocks)
      ensures forall other :: other != service ==> Unprocessed(other) == old(Unprocessed(other))
    {
      ok := blocks != [];
      var i := 0;
      while i < |blocks|
        invariant i <= |blocks|
        invariant forall row :: row in unprocessed <==> row in old(unprocessed) || (row.0 == service && row.1 in blocks[..i])
      {
        unprocessed := unprocessed + {(service, blocks[i])};
        i := i + 1;
      }
      assert blocks[..|blocks|] == blocks;
      forall other | other != service ensures Unprocessed(other) == old(Unprocessed(other)) {
      }
    }

    method DeleteUnprocessedBlock(service: string, blockNumber: nat) returns (found: bool)
      modifies this`unprocessed
      ensures found == (blockNumber in old(Unprocessed(service)))
      ensures Unprocessed(service) == old(Unprocessed(service)) - {blockNumber}
      ensures forall other :: other != service ==> Unprocessed(other) == old(Unprocessed(other))
    {
      found := (service, blockNumber) in unprocessed;
      unprocessed := unprocessed - {(service, blockNumber)};
      forall other | other != service ensures Unprocessed(other) == old(Unprocessed(other)) {
      }
    }
  }
}
