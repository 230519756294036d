/** What the clients have finalised, over whole runs in which blocks are finalised by the consensus only. */
module Clients {
  import opened Types
  import opened Replica
  import opened Trust
  import opened Protocol
  import opened Safety
  import opened Blocks
  import opened Progress

  /** The client numbers its blocks as `height` does. */
  ghost predicate TrueNumbers(height: Heights, client: Client) {
    forall hash :: hash in client.known ==> client.known[hash] == height(hash)
  }

  ghost predicate AtGenesis(height: Heights, genesis: Digest, client: Client) {
    client.finalizedHash == genesis && client.finalizedNumber == height(genesis)
  }

  /** Blocks may be imported at any time, with their true numbers, but nothing is finalised from outside. */
  ghost predicate ImportsOnly(height: Heights, s: State, a: Action) {
    a.Chain? ==>
      && TrueNumbers(height, a.client)
      && a.client.finalizedHash == s.client.finalizedHash && a.client.finalizedNumber == s.client.finalizedNumber
  }

  /** A run from a common finalised block in which only the consensus finalises. */
  ghost predicate BlockRun(c: Config, init: System, run: seq<Action>, height: Heights, genesis: Digest)
    decreases |run|
  {
    && CanRun(c, init, run)
    && if run == [] then
         forall id :: id in init ==> TrueNumbers(height, init[id].client) && AtGenesis(height, genesis, init[id].client)
       else
         var k := |run| - 1;
         BlockRun(c, init, run[..k], height, genesis) && ImportsOnly(height, After(c, init, run[..k])[run[k].id], run[k])
  }

  /** The finalised block is the one the run started from, or a higher one the replica has asked for. */
  ghost predicate ClientInv(height: Heights, genesis: Digest, s: State) {
    && TrueNumbers(height, s.client)
    && s.client.finalizedNumber == height(s.client.finalizedHash) >= height(genesis)
    && (AtGenesis(height, genesis, s.client) ||
        (Called(s.trace, s.client.finalizedHash) && s.client.finalizedNumber > height(genesis)))
  }

  lemma FollowsInv(height: Heights, genesis: Digest, s: State, s': State)
    requires ClientInv(height, genesis, s) && ClientFollows(s, s') && s.trace <= s'.trace
    ensures ClientInv(height, genesis, s')
  {
    hide Called;
    if s'.client == s.client && !AtGenesis(height, genesis, s.client) {
      CalledStays(s.trace, s'.trace, s.client.finalizedHash);
    }
  }

  lemma LocalClientInv(height: Heights, genesis: Digest, s: State, a: Action)
    requires WellFormed(s) && ClientInv(height, genesis, s) && ImportsOnly(height, s, a)
    ensures ClientInv(height, genesis, Local(s, a))
  {
    hide HandleLocalTimer, Handle, Settles, Called, ClientFollows;
    match a
    case Timer(_) =>
      HandleTimerSettles(s);
      SettlesMeans(s, HandleLocalTimer(s).state);
      FollowsInv(height, genesis, s, HandleLocalTimer(s).state);
    case Deliver(_, m) =>
      HandleSettles(s, m);
      SettlesMeans(s, Handle(s, m).state);
      FollowsInv(height, genesis, s, Handle(s, m).state);
    case Chain(_, _, _) =>
  }

  lemma {:induction false} RunClientInv(
    c: Config, init: System, run: seq<Action>, height: Heights, genesis: Digest, id: AuthorityId)
    requires BlockRun(c, init, run, height, genesis) && id in After(c, init, run)
    ensures ClientInv(height, genesis, After(c, init, run)[id])
    decreases |run|
  {
    hide ClientInv, ImportsOnly, Local;
    if run == [] {
      StartClientInv(height, genesis, init[id]);
    } else {
      var k := |run| - 1;
      RunClientInv(c, init, run[..k], height, genesis, id);
      if run[k].id == id {
        LocalClientInv(height, genesis, After(c, init, run[..k])[id], run[k]);
      }
    }
  }

  lemma StartClientInv(height: Heights, genesis: Digest, s: State)
    requires TrueNumbers(height, s.client) && AtGenesis(height, genesis, s.client)
    ensures ClientInv(height, genesis, s)
  {
  }

  lemma CalledIsFinalized(sys: System, id: AuthorityId, hash: Digest) returns (child: Proposal, parent: Proposal, grandpa: Proposal)
    requires id in sys && Called(sys[id].trace, hash)
    ensures Finalized(sys, id, child, parent, grandpa) && grandpa.payload.blockHash == hash
  {
    var i :| CalledAt(sys[id].trace, i, hash);
    var e := sys[id].trace[i];
    child, parent, grandpa := e.child, e.parent, e.grandpa;
  }

  /** If honest replicas vote under the locking rule and the rule on payloads, no two honest clients ever have
      different finalised blocks of the same number. */
  lemma {:induction false} ClientsAgree(
    c: Config, init: System, run: seq<Action>, height: Heights, genesis: Digest, id1: AuthorityId, id2: AuthorityId)
    requires BlockRun(c, init, run, height, genesis)
    requires var sys := After(c, init, run); id1 in sys && id2 in sys && Locked(sys) && VotesRepeat(sys, height)
    ensures var sys := After(c, init, run);
            sys[id1].client.finalizedNumber == sys[id2].client.finalizedNumber ==>
              sys[id1].client.finalizedHash == sys[id2].client.finalizedHash
  {
    hide BlockRun, CanRun, After, Locked, VotesRepeat, Called, TrueNumbers;
    assert CanRun(c, init, run) by { RunsAreRuns(c, init, run, height, genesis); }
    var sys := After(c, init, run);
    RunClientInv(c, init, run, height, genesis, id1);
    RunClientInv(c, init, run, height, genesis, id2);
    var client1, client2 := sys[id1].client, sys[id2].client;
    if client1.finalizedNumber == client2.finalizedNumber && client1.finalizedNumber > height(genesis) {
      var child1, parent1, grandpa1 := CalledIsFinalized(sys, id1, client1.finalizedHash);
      var child2, parent2, grandpa2 := CalledIsFinalized(sys, id2, client2.finalizedHash);
      assert Reachable(c, sys);
      LockedBlocks(c, sys, height, id1, child1, parent1, grandpa1, id2, child2, parent2, grandpa2);
    }
  }

  lemma {:induction false} RunsAreRuns(c: Config, init: System, run: seq<Action>, height: Heights, genesis: Digest)
    requires BlockRun(c, init, run, height, genesis)
    ensures CanRun(c, init, run)
  {
  }
}
