/** The mined notarization chain of `blockchain.py`. */
module Notary {
  import opened Wrappers

  datatype Header = Header(index: int, timestamp: string, proof: nat, merkleRoot: Option<string>, previousHash: string)
  datatype Block = Block(header: Header, blockHash: string)

  /** `content` is the canonical text a transaction's hash covers, as it was submitted; `block` is the index of
      its block. */
  datatype Transaction = Transaction(content: string, hash: string, block: Option<int>)

  /** Header and transaction digests, the text that the columns give back for a submitted content, the Merkle root
      of a batch, and the proof test. */
  datatype Env = Env(
    hash: Header -> string, transactionHash: string -> string, readBack: string -> string,
      merkleRoot: seq<string> -> string, validProof: (nat, nat) -> bool)

  /** `chain` holds the blocks in index order, `pending` the rows of `transactions` waiting for a block. */
  datatype State = State(chain: seq<Block>, transactions: seq<Transaction>, pending: seq<nat>)

  datatype Failure = EmptyBatch

  predicate LeastProof(env: Env, lastProof: nat, proof: nat) {
    env.validProof(lastProof, proof) && forall q: nat | q < proof :: !env.validProof(lastProof, q)
  }

  ghost predicate HasProof(env: Env, lastProof: nat) {
    exists p: nat :: env.validProof(lastProof, p)
  }

  ghost predicate Minable(env: Env) {
    forall last: nat :: HasProof(env, last)
  }

  // ----- Steps -----

  predicate PendingInRange(s: State) {
    forall i | 0 <= i < |s.pending| :: s.pending[i] < |s.transactions|
  }

  function PendingHashes(s: State): seq<string>
    requires PendingInRange(s)
  {
    seq(|s.pending|, i requires 0 <= i < |s.pending| => s.transactions[s.pending[i]].hash)
  }

  function NextIndex(s: State): int {
    if s.chain == [] then 1 else s.chain[|s.chain| - 1].header.index + 1
  }

  function RootFor(env: Env, s: State, root: Option<string>): Option<string>
    requires PendingInRange(s)
  {
    if root.Some? then root
    else if s.pending != [] then Some(env.merkleRoot(PendingHashes(s)))
    else if NextIndex(s) == 1 then None
    else Some(env.merkleRoot(["EMPTY_BLOCK"]))
  }

  /** The link of a new block: the hash given, or else that of the last block. */
  function LinkFor(s: State, previousHash: Option<string>): string {
    if previousHash.Some? && previousHash.value != "" then previousHash.value
    else if s.chain == [] then "1"
    else s.chain[|s.chain| - 1].blockHash
  }

  function NextHeader(env: Env, s: State, proof: nat, previousHash: Option<string>, root: Option<string>,
        timestamp: string): Header
    requires PendingInRange(s)
  {
    Header(NextIndex(s), timestamp, proof, RootFor(env, s, root), LinkFor(s, previousHash))
  }

  /** All pending transactions move into block `index`. */
  function Assigned(transactions: seq<Transaction>, pending: seq<nat>, index: int): seq<Transaction> {
    seq(|transactions|, i requires 0 <= i < |transactions| =>
      if i in pending then transactions[i].(block := Some(index)) else transactions[i])
  }

  function WithBlock(env: Env, s: State, proof: nat, previousHash: Option<string>, root: Option<string>,
        timestamp: string): State
    requires PendingInRange(s)
  {
    var header := NextHeader(env, s, proof, previousHash, root, timestamp);
    State(s.chain + [Block(header, env.hash(header))], Assigned(s.transactions, s.pending, header.index), [])
  }

  function WithTransaction(env: Env, s: State, content: string): State {
    State(s.chain, s.transactions + [Transaction(content, env.transactionHash(content), None)],
      s.pending + [|s.transactions|])
  }

  // ----- Validity -----

  predicate BlockOk(env: Env, chain: seq<Block>, i: nat)
    requires 0 < i < |chain|
  {
    && chain[i].blockHash == env.hash(chain[i].header)
    && chain[i].header.previousHash == chain[i - 1].blockHash
    && env.validProof(chain[i - 1].header.proof, chain[i].header.proof)
  }

  /** What the table gives back has the stored hash. */
  predicate TransactionOk(env: Env, t: Transaction) {
    t.hash == env.transactionHash(env.readBack(t.content))
  }

  predicate TransactionsOk(env: Env, transactions: seq<Transaction>, index: int) {
    forall k | 0 <= k < |transactions| && transactions[k].block == Some(index) ::
      TransactionOk(env, transactions[k])
  }

  /** What `is_chain_valid` accepts: hashes, links and proofs of all blocks but the first, and the hashes of
      the transactions in them. */
  ghost predicate ChainValid(env: Env, s: State) {
    forall i | 0 < i < |s.chain| ::
      BlockOk(env, s.chain, i) && TransactionsOk(env, s.transactions, s.chain[i].header.index)
  }

  // ----- The notary -----

  class BlockchainNotary {
    const env: Env
    var chain: seq<Block>
    var transactions: seq<Transaction>
    var pending: seq<nat>

    function View(): State
      reads this
    {
      State(chain, transactions, pending)
    }

    /** Opens the stored blocks and transactions, and creates the genesis block when there is none. */
    constructor (env: Env, blocks: seq<Block>, stored: seq<Transaction>, timestamp: string)
      requires blocks == [] || ChainSound(env, blocks)
      requires forall k | 0 <= k < |stored| :: TransactionSound(env, stored[k], |blocks|)
      ensures this.env == env && Sound(env, View())
      ensures blocks <= chain && |chain| == (if blocks == [] then 1 else |blocks|)
      ensures blocks == [] ==> chain[0].header.proof == 100 && chain[0].header.previousHash == "1"
    {
      this.env, chain, transactions := env, blocks, stored;
      new;
      var open: seq<nat> := [];
      for k := 0 to |stored|
        invariant this.env == env && chain == blocks && transactions == stored
        invariant forall i | 0 <= i < |open| :: open[i] < k
        invariant forall i: nat | i < k :: i in open <==> stored[i].block == None
        invariant forall i, j | 0 <= i < j < |open| :: open[i] != open[j]
      {
        if stored[k].block == None {
          open := open + [k];
        }
      }
      pending := open;
      assert TransactionsSound(env, View());
      if chain == [] {
        BlockTakesPending(env, View(), 100, Some("1"), None, timestamp);
        hide TransactionsSound;
        NewBlock(100, Some("1"), None, timestamp);
      }
    }

    method HeaderFor(proof: nat, previousHash: Option<string>, root: Option<string>, timestamp: string)
      returns (header: Header)
      requires PendingInRange(View())
      ensures header == NextHeader(env, View(), proof, previousHash, root, timestamp)
    {
      var index, link := 1, "1";
      if chain != [] {
        index, link := chain[|chain| - 1].header.index + 1, chain[|chain| - 1].blockHash;
      }
      if previousHash.Some? && previousHash.value != "" {
        link := previousHash.value;
      }
      var merkleRoot := root;
      if root.None? {
        var hashes: seq<string> := [];
        for k := 0 to |pending|
          invariant hashes == PendingHashes(View())[..k]
        {
          hashes := hashes + [transactions[pending[k]].hash];
        }
        assert hashes == PendingHashes(View());
        if hashes != [] {
          merkleRoot := Some(env.merkleRoot(hashes));
        } else if index != 1 {
          merkleRoot := Some(env.merkleRoot(["EMPTY_BLOCK"]));
        }
      }
      header := Header(index, timestamp, proof, merkleRoot, link);
    }

    method NewBlock(proof: nat, previousHash: Option<string>, root: Option<string>, timestamp: string)
      requires PendingInRange(View())
      modifies this
      ensures View() == WithBlock(env, old(View()), proof, previousHash, root, timestamp)
    {
      hide NextHeader;
      var header := HeaderFor(proof, previousHash, root, timestamp);
      chain := chain + [Block(header, env.hash(header))];
      for k := 0 to |pending|
        invariant chain == old(chain) + [Block(header, env.hash(header))] && pending == old(pending)
        invariant PendingInRange(View()) && transactions == Assigned(old(transactions), pending[..k], header.index)
      {
        transactions := transactions[pending[k] := transactions[pending[k]].(block := Some(header.index))];
      }
      assert pending[..|pending|] == pending;
      pending := [];
    }

    method NewTransaction(content: string)
      modifies this
      ensures View() == WithTransaction(env, old(View()), content)
      ensures old(Sound(env, View())) ==> Sound(env, View())
    {
      if Sound(env, View()) {
        StepSound(env, View(), Submit(content));
      }
      pending := pending + [|transactions|];
      transactions := transactions + [Transaction(content, env.transactionHash(content), None)];
    }

    method ProofOfWork(lastProof: nat) returns (proof: nat)
      requires HasProof(env, lastProof)
      ensures LeastProof(env, lastProof, proof)
    {
      ghost var p: nat :| env.validProof(lastProof, p);
      proof := 0;
      while !env.validProof(lastProof, proof)
        invariant proof <= p && forall q: nat | q < proof :: !env.validProof(lastProof, q)
        decreases p - proof
      {
        proof := proof + 1;
      }
    }

    method CommitAuditBatch(batch: seq<string>, timestamp: string) returns (result: Result<Block, Failure>,
          ghost proof: nat)
      requires Minable(env) && Sound(env, View())
      modifies this
      ensures Sound(env, View())
      ensures batch == [] ==> result == Err(EmptyBatch) && View() == old(View())
      ensures batch != [] ==>
        && Possible(env, old(View()), Commit(batch, timestamp, proof))
          && View() == Step(env, old(View()), Commit(batch, timestamp, proof))
        && result == Ok(chain[|chain| - 1])
    {
      hide LeastProof, HasProof, Assigned, TransactionSound, TransactionsSound, RootFor, WithBlock, Extends;
      assert PendingInRange(View()) by { SoundInRange(env, View()); }
      if batch == [] {
        return Err(EmptyBatch), 0;
      }
      assert HasProof(env, chain[|chain| - 1].header.proof);
      var last := chain[|chain| - 1];
      var found := ProofOfWork(last.header.proof);
      proof := found;
      StepSound(env, View(), Commit(batch, timestamp, proof));
      NewBlock(found, Some(last.blockHash), Some(env.merkleRoot(batch)), timestamp);
      result := Ok(chain[|chain| - 1]);
    }

    method IsChainValid() returns (ok: bool)
      ensures ok <==> ChainValid(env, View())
    {
      if chain == [] {
        return true;
      }
      var last := chain[0];
      for i := 1 to |chain|
        invariant last == chain[i - 1]
        invariant forall j | 0 < j < i ::
          BlockOk(env, chain, j) && TransactionsOk(env, transactions, chain[j].header.index)
      {
        var block := chain[i];
        if block.blockHash != env.hash(block.header) || block.header.previousHash != last.blockHash
          || !env.validProof(last.header.proof, block.header.proof) {
          assert !BlockOk(env, chain, i);
          return false;
        }
        for k := 0 to |transactions|
          invariant forall l | 0 <= l < k && transactions[l].block == Some(block.header.index) ::
            TransactionOk(env, transactions[l])
        {
          if transactions[k].block == Some(block.header.index)
              && transactions[k].hash != env.transactionHash(env.readBack(transactions[k].content)) {
            assert !TransactionsOk(env, transactions, chain[i].header.index);
            return false;
          }
        }
        last := block;
      }
      ok := true;
    }
  }

  // ----- What every run keeps -----

  datatype Action =
    | Submit(content: string)
    | Commit(batch: seq<string>, timestamp: string, proof: nat)

  ghost predicate Possible(env: Env, s: State, a: Action) {
    a.Commit? ==> s.chain != [] && a.batch != [] && LeastProof(env, s.chain[|s.chain| - 1].header.proof, a.proof)
  }

  ghost function Step(env: Env, s: State, a: Action): State
    requires Possible(env, s, a) && PendingInRange(s)
  {
    match a
    case Submit(content) => WithTransaction(env, s, content)
    case Commit(batch, timestamp, proof) =>
      WithBlock(env, s, proof, Some(s.chain[|s.chain| - 1].blockHash), Some(env.merkleRoot(batch)), timestamp)
  }

  /** Indices are 1..n, every hash and link is right, and every mined proof is the least valid one. */
  ghost predicate ChainSound(env: Env, chain: seq<Block>) {
    && chain != []
    && (forall i | 0 <= i < |chain| ::
      chain[i].header.index == i + 1 && chain[i].blockHash == env.hash(chain[i].header))
    && (forall i | 0 < i < |chain| ::
          chain[i].header.previousHash == chain[i - 1].blockHash
            && LeastProof(env, chain[i - 1].header.proof, chain[i].header.proof))
  }

  predicate TransactionSound(env: Env, t: Transaction, blocks: nat) {
    t.hash == env.transactionHash(t.content) && (t.block.Some? ==> 1 <= t.block.value <= blocks)
  }

  /** Each transaction is either pending, once, or in exactly one existing block. */
  ghost predicate TransactionsSound(env: Env, s: State) {
    && (forall k | 0 <= k < |s.transactions| :: TransactionSound(env, s.transactions[k], |s.chain|))
    && (forall k: nat | k < |s.transactions| :: k in s.pending <==> s.transactions[k].block == None)
    && (forall i, j | 0 <= i < j < |s.pending| :: s.pending[i] != s.pending[j])
    && PendingInRange(s)
  }

  ghost predicate Sound(env: Env, s: State) {
    ChainSound(env, s.chain) && TransactionsSound(env, s)
  }

  lemma SoundInRange(env: Env, s: State)
    requires Sound(env, s)
    ensures PendingInRange(s)
  {}

  /** Blocks and transactions are only added, and a transaction that is in a block stays there. */
  ghost predicate Extends(s: State, t: State) {
    && s.chain <= t.chain && |s.transactions| <= |t.transactions|
    && (forall k | 0 <= k < |s.transactions| ::
          && t.transactions[k].content == s.transactions[k].content && t.transactions[k].hash == s.transactions[k].hash
          && (s.transactions[k].block.Some? ==> t.transactions[k] == s.transactions[k]))
  }

  lemma BlockAdded(env: Env, s: State, a: Action)
    requires ChainSound(env, s.chain) && PendingInRange(s) && Possible(env, s, a)
    ensures ChainSound(env, Step(env, s, a).chain)
  {
    hide LeastProof, RootFor, Assigned;
  }

  lemma BlockTakesPending(env: Env, s: State, proof: nat, previousHash: Option<string>, root: Option<string>,
        timestamp: string)
    requires TransactionsSound(env, s) && (s.chain == [] || s.chain[|s.chain| - 1].header.index == |s.chain|)
    ensures var t := WithBlock(env, s, proof, previousHash, root, timestamp);
      TransactionsSound(env, t) && Extends(s, t) && t.pending == []
  {
    var t := WithBlock(env, s, proof, previousHash, root, timestamp);
    var index := NextHeader(env, s, proof, previousHash, root, timestamp).index;
    assert index == |s.chain| + 1 && s.chain <= t.chain && |t.chain| == |s.chain| + 1;
    assert t.transactions == Assigned(s.transactions, s.pending, index) && t.pending == [];
    hide WithBlock, NextHeader, RootFor;
    forall k: nat | k < |s.transactions|
      ensures TransactionSound(env, t.transactions[k], |t.chain|) && t.transactions[k].block.Some?
      ensures s.transactions[k].block.Some? ==> t.transactions[k] == s.transactions[k]
    {
      assert TransactionSound(env, s.transactions[k], |s.chain|);
      assert k in s.pending <==> s.transactions[k].block == None;
    }
    assert forall k: nat | k < |s.transactions| :: k !in t.pending;
  }

  lemma SubmissionWaits(env: Env, s: State, content: string)
    requires TransactionsSound(env, s)
    ensures TransactionsSound(env, WithTransaction(env, s, content)) && Extends(s, WithTransaction(env, s, content))
  {
    var t := WithTransaction(env, s, content);
    forall k | 0 <= k < |s.transactions| ensures TransactionSound(env, t.transactions[k], |t.chain|) {
      assert TransactionSound(env, s.transactions[k], |s.chain|);
    }
  }

  lemma StepSound(env: Env, s: State, a: Action)
    requires Sound(env, s) && Possible(env, s, a)
    ensures Sound(env, Step(env, s, a)) && Extends(s, Step(env, s, a))
    ensures a.Commit? ==> Step(env, s, a).pending == []
  {
    BlockAdded(env, s, a);
    match a
    case Submit(content) => SubmissionWaits(env, s, content);
    case Commit(batch, timestamp, proof) =>
      assert s.chain[|s.chain| - 1].header.index == |s.chain|;
      BlockTakesPending(env, s, proof, Some(s.chain[|s.chain| - 1].blockHash), Some(env.merkleRoot(batch)), timestamp);
      hide ChainSound, TransactionsSound, Extends, WithBlock;
  }

  ghost function RunFrom(env: Env, s: State, actions: seq<Action>): Option<State> {
    if actions == [] then Some(s)
    else
      var before := RunFrom(env, s, actions[..|actions| - 1]);
      if before.Some? && PendingInRange(before.value) && Possible(env, before.value, actions[|actions| - 1])
      then Some(Step(env, before.value, actions[|actions| - 1]))
      else None
  }

  /** Any interleaving of submissions and commits keeps the chain sound and only extends it. */
  lemma {:induction false} RunSound(env: Env, s: State, actions: seq<Action>, t: State)
    requires Sound(env, s) && RunFrom(env, s, actions) == Some(t)
    ensures Sound(env, t) && Extends(s, t)
  {
    if actions != [] {
      var before := RunFrom(env, s, actions[..|actions| - 1]).value;
      RunSound(env, s, actions[..|actions| - 1], before);
      StepSound(env, before, actions[|actions| - 1]);
      hide Sound, Step, Possible;
    }
  }

  /** The columns give back a content with the digest of the one submitted. */
  predicate Survives(env: Env, t: Transaction) {
    env.transactionHash(env.readBack(t.content)) == env.transactionHash(t.content)
  }

  /** After every run `is_chain_valid` answers true if and only if the content of every transaction in a block after
      the first survives storage. */
  lemma RunValidExactly(env: Env, s: State, actions: seq<Action>, t: State)
    requires Sound(env, s) && RunFrom(env, s, actions) == Some(t)
    ensures ChainValid(env, t) <==>
      forall k | 0 <= k < |t.transactions| && t.transactions[k].block.Some? && t.transactions[k].block.value > 1 ::
        Survives(env, t.transactions[k])
  {
    RunSound(env, s, actions, t);
    SoundIsValidExactly(env, t);
  }

  /** One transaction that does not survive makes the chain invalid from its block on. */
  lemma AlteredTransactionInvalidates(env: Env, s: State, content: string, commit: Action)
    requires Sound(env, s) && env.transactionHash(env.readBack(content)) != env.transactionHash(content)
    requires commit.Commit? && Possible(env, s, commit)
    ensures var submitted := Step(env, s, Submit(content));
      Sound(env, submitted) && Possible(env, submitted, commit) && !ChainValid(env, Step(env, submitted, commit))
  {
    hide ChainValid, Extends, TransactionSound;
    StepSound(env, s, Submit(content));
    var submitted := Step(env, s, Submit(content));
    StepSound(env, submitted, commit);
    hide ChainSound, TransactionsSound;
    SoundIsValidExactly(env, Step(env, submitted, commit));
    var k := |s.transactions|;
    assert submitted.transactions[k] == Transaction(content, env.transactionHash(content), None);
    CommitEmptiesPending(env, submitted, commit);
    assert |s.chain| > 0;
    assert !Survives(env, Step(env, submitted, commit).transactions[k]);
  }

  lemma SoundIsValidExactly(env: Env, s: State)
    requires Sound(env, s)
    ensures ChainValid(env, s) <==>
      forall k | 0 <= k < |s.transactions| && s.transactions[k].block.Some? && s.transactions[k].block.value > 1 ::
        Survives(env, s.transactions[k])
  {
    forall k | 0 <= k < |s.transactions|
      ensures TransactionOk(env, s.transactions[k]) <==> Survives(env, s.transactions[k])
    {
      assert TransactionSound(env, s.transactions[k], |s.chain|);
    }
    hide TransactionOk, Survives;
    assert forall i | 0 < i < |s.chain| :: BlockOk(env, s.chain, i);
    if ChainValid(env, s) {
      forall k | 0 <= k < |s.transactions| && s.transactions[k].block.Some? && s.transactions[k].block.value > 1
        ensures Survives(env, s.transactions[k])
      {
        assert TransactionSound(env, s.transactions[k], |s.chain|);
        var i := s.transactions[k].block.value - 1;
        assert s.chain[i].header.index == i + 1 && TransactionsOk(env, s.transactions, s.chain[i].header.index);
      }
    }
  }

  /** A mined block carries the root of its own batch, and links to the block that was last. */
  lemma CommitCarriesRoot(env: Env, s: State, a: Action)
    requires Sound(env, s) && Possible(env, s, a) && a.Commit?
    ensures var t := Step(env, s, a);
      && |t.chain| == |s.chain| + 1 && t.chain[..|s.chain|] == s.chain
      && var block := t.chain[|s.chain|];
        && block.header.merkleRoot == Some(env.merkleRoot(a.batch))
        && block.header.timestamp == a.timestamp && block.header.proof == a.proof
        && block.header.index == |s.chain| + 1 && block.blockHash == env.hash(block.header)
        && block.header.previousHash == s.chain[|s.chain| - 1].blockHash
  {
    hide LeastProof, TransactionSound, Assigned;
  }

  /** Every transaction submitted before a commit is in a block after it. */
  lemma CommitEmptiesPending(env: Env, s: State, a: Action)
    requires Sound(env, s) && Possible(env, s, a) && a.Commit?
    ensures forall k | 0 <= k < |s.transactions| :: Step(env, s, a).transactions[k].block.Some?
    ensures forall k | 0 <= k < |s.transactions| && s.transactions[k].block == None ::
      Step(env, s, a).transactions[k].block == Some(|s.chain| + 1)
  {
  }

  // ----- What validity does and does not notice -----

  /** The last block hash pins every header after the first: two valid chains of equal length that end in
      the same block hash agree on them, or two different headers have the same hash. */
  lemma {:induction false} LastHashPinsHeaders(env: Env, a: State, b: State, n: nat)
    requires ChainValid(env, a) && ChainValid(env, b) && n < |a.chain| && n < |b.chain|
    requires a.chain[n].blockHash == b.chain[n].blockHash
    ensures (forall i | 0 < i <= n :: a.chain[i] == b.chain[i]) ||
      exists i | 0 < i <= n ::
        a.chain[i].header != b.chain[i].header && env.hash(a.chain[i].header) == env.hash(b.chain[i].header)
  {
    if n > 0 {
      assert BlockOk(env, a.chain, n) && BlockOk(env, b.chain, n);
      if a.chain[n].header == b.chain[n].header {
        LastHashPinsHeaders(env, a, b, n - 1);
      }
    }
  }

  /** Removing transactions from the table goes unnoticed: validity checks the transactions that are there
      and never recomputes a Merkle root. */
  lemma RemovedTransactionsUnnoticed(env: Env, s: State, kept: seq<Transaction>)
    requires ChainValid(env, s) && forall t | t in kept :: t in s.transactions
    ensures ChainValid(env, s.(transactions := kept))
  {
    forall i | 0 < i < |s.chain| ensures TransactionsOk(env, kept, s.chain[i].header.index) {
      assert TransactionsOk(env, s.transactions, s.chain[i].header.index);
      forall k | 0 <= k < |kept| && kept[k].block == Some(s.chain[i].header.index)
        ensures TransactionOk(env, kept[k])
      {
        assert kept[k] in s.transactions;
      }
    }
    assert forall i | 0 < i < |s.chain| :: BlockOk(env, s.chain, i);
  }
}
