/** The queue of best blocks that wait to be finalised, fed by the client's notifications. */
module PendingQueue {
  import opened Types
  import opened Replica

  datatype Import = Import(hash: Digest, number: BlockNumber, isNewBest: bool)

  /** One notification as the queue sees it. */
  datatype Notice = Best(block: BlockInfo) | Final(number: BlockNumber)

  /** Pop from the front while the front is not above the finalised number. */
  function DropFinalized(q: seq<BlockInfo>, finalized: BlockNumber): seq<BlockInfo> {
    if q == [] || q[0].number > finalized then q else DropFinalized(q[1..], finalized)
  }

  function Receive(q: seq<BlockInfo>, notice: Notice): seq<BlockInfo> {
    match notice
    case Best(block) => q + [block]
    case Final(number) => DropFinalized(q, number)
  }

  function ReceiveAll(q: seq<BlockInfo>, notices: seq<Notice>): seq<BlockInfo> {
    if notices == [] then q
    else Receive(ReceiveAll(q, notices[..|notices| - 1]), notices[|notices| - 1])
  }

  function BestBlocks(imports: seq<Import>): seq<Notice> {
    if imports == [] then []
    else
      var last := imports[|imports| - 1];
      BestBlocks(imports[..|imports| - 1]) +
      if last.isNewBest then [Best(BlockInfo(Some(last.hash), last.number))] else []
  }

  function Finals(numbers: seq<BlockNumber>): seq<Notice> {
    seq(|numbers|, i requires 0 <= i < |numbers| => Final(numbers[i]))
  }

  lemma {:induction false} ReceiveConcat(q: seq<BlockInfo>, a: seq<Notice>, b: seq<Notice>)
    ensures ReceiveAll(q, a + b) == ReceiveAll(ReceiveAll(q, a), b)
  {
    if b == [] {
      assert a + b == a;
    } else {
      ReceiveConcat(q, a, b[..|b| - 1]);
      assert (a + b)[..|a + b| - 1] == a + b[..|b| - 1];
    }
  }

  lemma {:induction false} ReceiveImport(q: seq<BlockInfo>, imports: seq<Import>, i: nat)
    requires i < |imports|
    ensures ReceiveAll(q, BestBlocks(imports[..i + 1])) ==
            ReceiveAll(q, BestBlocks(imports[..i])) +
            if imports[i].isNewBest then [BlockInfo(Some(imports[i].hash), imports[i].number)] else []
  {
    assert imports[..i + 1][..i] == imports[..i];
    var notices, block := BestBlocks(imports[..i]), BlockInfo(Some(imports[i].hash), imports[i].number);
    assert (notices + [Best(block)])[..|notices|] == notices;
    assert notices + [] == notices;
  }

  ghost predicate Increasing(q: seq<BlockInfo>) {
    forall i, j :: 0 <= i < j < |q| ==> q[i].number < q[j].number
  }

  /** The block was imported as the new best one. */
  ghost predicate IsNewBest(imports: seq<Import>, b: BlockInfo) {
    exists i :: 0 <= i < |imports| && imports[i].isNewBest && b == BlockInfo(Some(imports[i].hash), imports[i].number)
  }

  /** The numbers of the queue and of the new best blocks increase. */
  ghost predicate InOrder(q: seq<BlockInfo>, imports: seq<Import>) {
    && Increasing(q)
    && (forall b, i :: b in q && 0 <= i < |imports| && imports[i].isNewBest ==> b.number < imports[i].number)
    && (forall i, j :: 0 <= i < j < |imports| && imports[i].isNewBest && imports[j].isNewBest ==>
          imports[i].number < imports[j].number)
  }

  lemma {:induction false} ImportsContent(q: seq<BlockInfo>, imports: seq<Import>, k: nat)
    requires k <= |imports|
    ensures forall b :: b in ReceiveAll(q, BestBlocks(imports[..k])) <==> b in q || IsNewBest(imports[..k], b)
  {
    if k == 0 {
      assert imports[..0] == [];
    } else {
      ImportsContent(q, imports, k - 1);
      ReceiveImport(q, imports, k - 1);
      NewBestStep(imports, k - 1);
      hide IsNewBest, ReceiveAll, BestBlocks;
    }
  }

  lemma IncreasingAppend(q: seq<BlockInfo>, b: BlockInfo)
    requires Increasing(q) && forall b' :: b' in q ==> b'.number < b.number
    ensures Increasing(q + [b])
  {
  }

  lemma {:induction false} ImportsIncrease(q: seq<BlockInfo>, imports: seq<Import>, k: nat)
    requires k <= |imports| && InOrder(q, imports)
    ensures Increasing(ReceiveAll(q, BestBlocks(imports[..k])))
  {
    if k == 0 {
      assert imports[..0] == [];
    } else {
      ImportsIncrease(q, imports, k - 1);
      ReceiveImport(q, imports, k - 1);
      ImportsContent(q, imports, k - 1);
      if imports[k - 1].isNewBest {
        hide ReceiveAll, BestBlocks, Increasing;
        IncreasingAppend(ReceiveAll(q, BestBlocks(imports[..k - 1])), BlockInfo(Some(imports[k - 1].hash), imports[k - 1].number));
      }
    }
  }

  lemma NewBestStep(imports: seq<Import>, k: nat)
    requires k < |imports|
    ensures forall b :: IsNewBest(imports[..k + 1], b) <==>
              IsNewBest(imports[..k], b) || (imports[k].isNewBest && b == BlockInfo(Some(imports[k].hash), imports[k].number))
  {
    forall b | IsNewBest(imports[..k], b) ensures IsNewBest(imports[..k + 1], b) {
      var i :| 0 <= i < k && imports[..k][i].isNewBest && b == BlockInfo(Some(imports[..k][i].hash), imports[..k][i].number);
      assert imports[..k + 1][i] == imports[..k][i];
    }
    if imports[k].isNewBest {
      assert imports[..k + 1][k] == imports[k];
    }
  }

  lemma {:induction false} FinalsStep(q: seq<BlockInfo>, finalized: seq<BlockNumber>)
    requires finalized != []
    ensures var k := |finalized| - 1;
            ReceiveAll(q, Finals(finalized)) == DropFinalized(ReceiveAll(q, Finals(finalized[..k])), finalized[k])
  {
    var k := |finalized| - 1;
    assert Finals(finalized)[..k] == Finals(finalized[..k]);
  }

  lemma {:induction false} FinalsFront(q: seq<BlockInfo>, finalized: seq<BlockNumber>)
    requires finalized != []
    ensures var r := ReceiveAll(q, Finals(finalized)); r == [] || r[0].number > finalized[|finalized| - 1]
  {
    hide ReceiveAll, Finals;
    var k := |finalized| - 1;
    FinalsStep(q, finalized);
    var n := DropIsSuffix(ReceiveAll(q, Finals(finalized[..k])), finalized[k]);
  }

  lemma {:induction false} FinalsContent(q: seq<BlockInfo>, finalized: seq<BlockNumber>)
    requires Increasing(q)
    ensures var r := ReceiveAll(q, Finals(finalized));
            && Increasing(r)
            && forall b :: b in r <==> b in q && forall i :: 0 <= i < |finalized| ==> b.number > finalized[i]
  {
    if finalized != [] {
      hide ReceiveAll, Finals, Increasing, DropFinalized;
      var k := |finalized| - 1;
      FinalsContent(q, finalized[..k]);
      FinalsStep(q, finalized);
      DropExact(ReceiveAll(q, Finals(finalized[..k])), finalized[k]);
      assert forall i :: 0 <= i < k ==> finalized[..k][i] == finalized[i];
    }
  }

  lemma {:induction false} PollExact(q: seq<BlockInfo>, imports: seq<Import>, finalized: seq<BlockNumber>)
    ensures var r := ReceiveAll(q, BestBlocks(imports) + Finals(finalized));
            && (finalized != [] ==> r == [] || r[0].number > finalized[|finalized| - 1])
            && (InOrder(q, imports) ==>
                  && Increasing(r)
                  && forall b :: b in r <==>
                       (b in q || IsNewBest(imports, b)) && forall i :: 0 <= i < |finalized| ==> b.number > finalized[i])
  {
    hide ReceiveAll, BestBlocks, Finals, IsNewBest, InOrder;
    ReceiveConcat(q, BestBlocks(imports), Finals(finalized));
    assert imports[..|imports|] == imports;
    ImportsContent(q, imports, |imports|);
    var r := ReceiveAll(q, BestBlocks(imports));
    if finalized != [] {
      FinalsFront(r, finalized);
    }
    if InOrder(q, imports) {
      ImportsIncrease(q, imports, |imports|);
      FinalsContent(r, finalized);
    }
  }

  class PendingFinalizeBlockQueue {
    var inner: seq<BlockInfo>

    /** Every queued block has a hash, so logging a popped block cannot fail. */
    ghost predicate Valid()
      reads this
    {
      forall i :: 0 <= i < |inner| ==> inner[i].hash.Some?
    }

    constructor ()
      ensures inner == []
    {
      inner := [];
    }

    /** Start-up.  The blocks between the finalised and the best one are looked up, and a failing lookup
        fails the start; what was found is not put into the queue, which starts empty. */
    static method Create(finalizedNumber: BlockNumber, bestNumber: BlockNumber, lookup: map<BlockNumber, Option<Digest>>)
      returns (r: Result<PendingFinalizeBlockQueue>)
      ensures r.Ok? <==> forall n :: finalizedNumber < n <= bestNumber ==> n in lookup
      ensures r.Ok? ==> fresh(r.value) && r.value.inner == []
    {
      var blockNumber := finalizedNumber + 1;
      var queue: seq<BlockInfo> := [];
      while blockNumber <= bestNumber
        invariant finalizedNumber < blockNumber
        invariant forall n :: finalizedNumber < n < blockNumber && n <= bestNumber ==> n in lookup
      {
        if blockNumber !in lookup {
          return Err(ClientError);
        }
        queue := queue + [BlockInfo(lookup[blockNumber], blockNumber)];
        blockNumber := blockNumber + 1;
      }
      var q := new PendingFinalizeBlockQueue();
      return Ok(q);
    }

    /** One poll: all waiting import notifications, then all waiting finality notifications. */
    method Poll(imports: seq<Import>, finalized: seq<BlockNumber>)
      requires Valid()
      modifies this
      ensures Valid()
      ensures inner == ReceiveAll(old(inner), BestBlocks(imports) + Finals(finalized))
      ensures finalized != [] ==> inner == [] || inner[0].number > finalized[|finalized| - 1]
      ensures InOrder(old(inner), imports) ==>
                && Increasing(inner)
                && forall b :: b in inner <==>
                     (b in old(inner) || IsNewBest(imports, b)) && forall i :: 0 <= i < |finalized| ==> b.number > finalized[i]
    {
      PollExact(inner, imports, finalized);
      ReceiveConcat(inner, BestBlocks(imports), Finals(finalized));
      PollImports(imports);
      PollFinality(finalized);
    }

    method PollImports(imports: seq<Import>)
      requires Valid()
      modifies this
      ensures Valid()
      ensures inner == ReceiveAll(old(inner), BestBlocks(imports))
    {
      assert BestBlocks(imports[..0]) == [];
      hide ReceiveAll, BestBlocks;
      ghost var q := inner;
      for i := 0 to |imports|
        invariant Valid()
        invariant inner == ReceiveAll(q, BestBlocks(imports[..i]))
      {
        ReceiveImport(q, imports, i);
        if imports[i].isNewBest {
          inner := inner + [BlockInfo(Some(imports[i].hash), imports[i].number)];
        }
      }
      assert imports[..|imports|] == imports;
    }

    method PollFinality(finalized: seq<BlockNumber>)
      requires Valid()
      modifies this
      ensures Valid()
      ensures inner == ReceiveAll(old(inner), Finals(finalized))
    {
      ghost var q, finals := inner, Finals(finalized);
      for i := 0 to |finalized|
        invariant Valid()
        invariant inner == ReceiveAll(q, finals[..i])
      {
        assert finals[..i + 1][..i] == finals[..i];
        PopFinalized(finalized[i]);
      }
      assert finals[..|finalized|] == finals;
    }

    method PopFinalized(finalized: BlockNumber)
      requires Valid()
      modifies this
      ensures Valid()
      ensures inner == DropFinalized(old(inner), finalized)
    {
      while |inner| > 0
        invariant Valid()
        invariant DropFinalized(old(inner), finalized) == DropFinalized(inner, finalized)
        decreases |inner|
      {
        if inner[0].number > finalized {
          break;
        }
        var popped := inner[0].hash.value;
        inner := inner[1..];
      }
    }
  }

  // ---------- Any interleaving of notifications ----------

  /** The best blocks among the notices, in order. */
  function Blocks(notices: seq<Notice>): seq<BlockInfo> {
    if notices == [] then []
    else
      var last := notices[|notices| - 1];
      Blocks(notices[..|notices| - 1]) + if last.Best? then [last.block] else []
  }

  lemma DropIsSuffix(q: seq<BlockInfo>, finalized: BlockNumber) returns (k: nat)
    ensures k <= |q| && DropFinalized(q, finalized) == q[k..]
    ensures forall i :: 0 <= i < k ==> q[i].number <= finalized
    ensures k < |q| ==> q[k].number > finalized
  {
    if q == [] || q[0].number > finalized {
      k := 0;
    } else {
      var k' := DropIsSuffix(q[1..], finalized);
      k := k' + 1;
      assert q[1..][k'..] == q[k..];
      assert forall i :: 1 <= i < k ==> q[i] == q[1..][i - 1];
    }
  }

  /** Whatever the order of notifications, the queue is a suffix of the imported best blocks. */
  lemma QueueIsSuffix(notices: seq<Notice>) returns (k: nat)
    ensures k <= |Blocks(notices)| && ReceiveAll([], notices) == Blocks(notices)[k..]
  {
    if notices == [] {
      k := 0;
    } else {
      var init, last := notices[..|notices| - 1], notices[|notices| - 1];
      var k' := QueueIsSuffix(init);
      match last
      case Best(block) =>
        k := k';
        assert Blocks(notices)[k..] == Blocks(init)[k..] + [block];
      case Final(number) =>
        var dropped := DropIsSuffix(Blocks(init)[k'..], number);
        k := k' + dropped;
        assert Blocks(notices) == Blocks(init);
        assert Blocks(init)[k'..][dropped..] == Blocks(init)[k..];
    }
  }

  /** The number of the block was finalised by a notice that came after the block itself. */
  ghost predicate FinalizedAfter(notices: seq<Notice>, i: int) {
    0 <= i < |notices| && notices[i].Best? &&
    exists j :: i < j < |notices| && notices[j].Final? && notices[j].number >= notices[i].block.number
  }

  lemma {:induction false} BlocksContain(notices: seq<Notice>, i: int)
    requires 0 <= i < |notices| && notices[i].Best?
    ensures notices[i].block in Blocks(notices)
  {
    var init := notices[..|notices| - 1];
    if i < |init| {
      BlocksContain(init, i);
    }
  }

  lemma {:induction false} IncreasingInit(notices: seq<Notice>)
    requires notices != [] && Increasing(Blocks(notices))
    ensures Increasing(Blocks(notices[..|notices| - 1]))
  {
    var init := Blocks(notices[..|notices| - 1]);
    assert init == Blocks(notices)[..|init|];
    forall i, j | 0 <= i < j < |init| ensures init[i].number < init[j].number {
      assert init[i] == Blocks(notices)[i] && init[j] == Blocks(notices)[j];
    }
  }

  /** In an increasing queue a finality notice removes exactly the blocks that are not above it. */
  lemma {:induction false} DropExact(q: seq<BlockInfo>, finalized: BlockNumber)
    requires Increasing(q)
    ensures Increasing(DropFinalized(q, finalized))
    ensures forall b :: b in DropFinalized(q, finalized) <==> b in q && b.number > finalized
  {
    var k := DropIsSuffix(q, finalized);
    forall b | b in q && b.number > finalized ensures b in q[k..] {
      var i :| 0 <= i < |q| && q[i] == b;
      assert q[k..][i - k] == b;
    }
    forall b | b in q[k..] ensures b.number > finalized {
      var i :| 0 <= i < |q[k..]| && q[k..][i] == b;
      assert q[k + i] == b;
    }
  }

  lemma {:induction false} QueueIncreasing(notices: seq<Notice>)
    requires Increasing(Blocks(notices))
    ensures Increasing(ReceiveAll([], notices))
  {
    var k := QueueIsSuffix(notices);
  }

  /** If imports carry increasing numbers, the queue is sorted and holds exactly the best blocks that no
      later finality notice has reached. */
  lemma {:induction false} QueueExact(notices: seq<Notice>, i: int)
    requires Increasing(Blocks(notices)) && 0 <= i < |notices| && notices[i].Best?
    ensures Increasing(ReceiveAll([], notices))
    ensures notices[i].block in ReceiveAll([], notices) <==> !FinalizedAfter(notices, i)
    decreases |notices|
  {
    QueueIncreasing(notices);
    var k := |notices| - 1;
    var init, last := notices[..k], notices[k];
    var q := ReceiveAll([], init);
    IncreasingInit(notices);
    QueueIncreasing(init);
    if i < k {
      QueueExact(init, i);
      assert FinalizedAfter(notices, i) <==>
        FinalizedAfter(init, i) || (last.Final? && last.number >= notices[i].block.number) by {
        if FinalizedAfter(init, i) {
          var j :| i < j < |init| && init[j].Final? && init[j].number >= init[i].block.number;
          assert notices[j].Final?;
        }
        if last.Final? && last.number >= notices[i].block.number {
          assert notices[k].Final?;
        }
      }
      match last
      case Best(block) =>
        BlocksContain(init, i);
        NewBlockIsHigher(init, block, notices[i].block);
      case Final(number) =>
        DropExact(q, number);
    } else {
      assert ReceiveAll([], notices)[|q|] == notices[i].block;
    }
  }

  lemma {:induction false} NewBlockIsHigher(init: seq<Notice>, block: BlockInfo, earlier: BlockInfo)
    requires Increasing(Blocks(init) + [block]) && earlier in Blocks(init)
    ensures earlier.number < block.number
  {
    var j :| 0 <= j < |Blocks(init)| && Blocks(init)[j] == earlier;
    assert (Blocks(init) + [block])[j] == earlier && (Blocks(init) + [block])[|Blocks(init)|] == block;
  }

  /** The search for the next payload returns the lowest pending block above the finalised number. */
  lemma {:induction false} FirstAboveIsLowest(q: seq<BlockInfo>, finalized: BlockNumber)
    requires Increasing(q)
    ensures FirstAbove(q, finalized).None? <==> forall b :: b in q ==> b.number <= finalized
    ensures FirstAbove(q, finalized).Some? ==>
              var b := FirstAbove(q, finalized).value;
              b in q && b.number > finalized && forall b' :: b' in q && b'.number > finalized ==> b.number <= b'.number
  {
    if q != [] {
      assert forall i, j :: 0 <= i < j < |q[1..]| ==> q[1..][i].number < q[1..][j].number;
      FirstAboveIsLowest(q[1..], finalized);
      assert forall b :: b in q[1..] ==> q[0].number < b.number;
    }
  }

  /** The block whose finalisation is awaited, if any, lies above the finalised one. */
  predicate Awaiting(s: State) {
    s.processing.Some? && s.processing.value.number > s.client.finalizedNumber
  }

  /** `b` is pending, above the finalised block and the lowest such. */
  ghost predicate NextPending(s: State, b: BlockInfo) {
    && b in s.pending && b.number > s.client.finalizedNumber
    && forall b' :: b' in s.pending && b'.number > s.client.finalizedNumber ==> b.number <= b'.number
  }

  /** What is proposed, given increasing import numbers.  No block while one awaits finalisation; if the block in
      process is finalised, the lowest pending block above the finalised one, which becomes the block in process;
      if no block is in process, the lowest pending block whatever its number, or nothing when none is pending. */
  lemma PayloadChoice(s: State)
    requires Increasing(s.pending)
    ensures var (s', choice) := ProposalPayload(s);
            && (choice.None? <==> s.processing.None? && s.pending == [])
            && (Awaiting(s) ==> s' == s && choice == Some(Payload(EMPTY_PAYLOAD, s.processing.value.number)))
            && (s.processing.Some? && !Awaiting(s) ==>
                  if exists b :: NextPending(s, b) then
                    exists b :: NextPending(s, b) && choice == Some(PayloadOf(b)) && s'.processing == Some(b)
                  else s' == s && choice == Some(Payload(EMPTY_PAYLOAD, s.processing.value.number)))
            && (s.processing.None? && s.pending != [] ==>
                  exists b :: b in s.pending && (forall b' :: b' in s.pending ==> b.number <= b'.number) &&
                              choice == Some(PayloadOf(b)) && s'.processing == Some(b))
  {
    var finalized := s.client.finalizedNumber;
    FirstAboveIsLowest(s.pending, finalized);
    if s.processing.Some? && !Awaiting(s) && FirstAbove(s.pending, finalized).Some? {
      assert NextPending(s, FirstAbove(s.pending, finalized).value);
    }
    if s.pending != [] {
      assert s.pending[0] in s.pending;
      forall b | b in s.pending ensures s.pending[0].number <= b.number {
        var i :| 0 <= i < |s.pending| && s.pending[i] == b;
      }
    }
  }

  /** The first pending block above the finalised one, in the order of the queue. */
  predicate FirstPendingAt(s: State, i: int) {
    && 0 <= i < |s.pending| && s.pending[i].number > s.client.finalizedNumber
    && forall j :: 0 <= j < i ==> s.pending[j].number <= s.client.finalizedNumber
  }

  lemma {:induction false} FirstAboveAt(q: seq<BlockInfo>, finalized: BlockNumber, i: nat)
    requires i <= |q| && forall j :: 0 <= j < i ==> q[j].number <= finalized
    requires i < |q| ==> q[i].number > finalized
    ensures FirstAbove(q, finalized) == if i < |q| then Some(q[i]) else None
    decreases i
  {
    if i > 0 {
      FirstAboveAt(q[1..], finalized, i - 1);
    }
  }

  /** What is proposed, in the order of the queue and whatever the numbers in it. */
  lemma PayloadExact(s: State)
    ensures s.processing.Some? && !Awaiting(s) ==>
              forall i :: FirstPendingAt(s, i) ==>
                ProposalPayload(s) == (s.(processing := Some(s.pending[i])), Some(PayloadOf(s.pending[i])))
    ensures s.processing.Some? && (Awaiting(s) || forall b :: b in s.pending ==> b.number <= s.client.finalizedNumber) ==>
              ProposalPayload(s) == (s, Some(Payload(EMPTY_PAYLOAD, s.processing.value.number)))
    ensures s.processing.None? && s.pending != [] ==>
              ProposalPayload(s) == (s.(processing := Some(s.pending[0])), Some(PayloadOf(s.pending[0])))
    ensures s.processing.None? && s.pending == [] ==> ProposalPayload(s) == (s, None)
  {
    var finalized := s.client.finalizedNumber;
    forall i | FirstPendingAt(s, i) ensures FirstAbove(s.pending, finalized) == Some(s.pending[i]) {
      FirstAboveAt(s.pending, finalized, i);
    }
    if forall b :: b in s.pending ==> b.number <= finalized {
      FirstAboveAt(s.pending, finalized, |s.pending|);
    }
  }

  predicate ProposesBlock(s: State) {
    var choice := ProposalPayload(s).1;
    choice.Some? && choice.value.blockHash != EMPTY_PAYLOAD
  }

  /** A proposed block lies above the finalised one if and only if some block was in process or the front of the
      queue lies above the finalised one: with nothing in process the front is proposed unseen. */
  lemma ProposedAboveFinalized(s: State)
    requires ProposesBlock(s)
    ensures ProposalPayload(s).1.value.blockNumber > s.client.finalizedNumber <==>
            s.processing.Some? || (s.pending != [] && s.pending[0].number > s.client.finalizedNumber)
  {
    var finalized := s.client.finalizedNumber;
    if s.processing.Some? && FirstAbove(s.pending, finalized).Some? {
      FirstAboveIsAbove(s.pending, finalized);
    }
  }

  lemma {:induction false} FirstAboveIsAbove(q: seq<BlockInfo>, finalized: BlockNumber)
    requires FirstAbove(q, finalized).Some?
    ensures FirstAbove(q, finalized).value.number > finalized
  {
    if q[0].number <= finalized {
      FirstAboveIsAbove(q[1..], finalized);
    }
  }

  lemma {:induction false} ReceiveBlocks(q: seq<BlockInfo>, notices: seq<Notice>)
    requires forall i :: 0 <= i < |notices| ==> notices[i].Best?
    ensures ReceiveAll(q, notices) == q + Blocks(notices)
  {
    if notices != [] {
      ReceiveBlocks(q, notices[..|notices| - 1]);
    }
  }

  /** The queue some time after the notice of the finalised block, imports having followed: a proposed block lies above
      the finalised one if and only if a block was in process, the notice left a block in the queue, or the first
      block imported after it lies above it. */
  lemma {:induction false} NoticedIsNotProposed(s: State, before: seq<Notice>, after: seq<Notice>)
    requires ProposesBlock(s) && forall i :: 0 <= i < |after| ==> after[i].Best?
    requires s.pending == ReceiveAll([], before + [Final(s.client.finalizedNumber)] + after)
    ensures ProposalPayload(s).1.value.blockNumber > s.client.finalizedNumber <==>
            || s.processing.Some?
            || ReceiveAll([], before + [Final(s.client.finalizedNumber)]) != []
            || (after != [] && after[0].block.number > s.client.finalizedNumber)
  {
    var f := s.client.finalizedNumber;
    var noticed := before + [Final(f)];
    var q := ReceiveAll([], noticed);
    assert noticed[..|before|] == before;
    var k := DropIsSuffix(ReceiveAll([], before), f);
    ReceiveConcat([], noticed, after);
    ReceiveBlocks(q, after);
    if after != [] {
      FirstBlock(after);
    }
    ProposedAboveFinalized(s);
  }

  lemma {:induction false} FirstBlock(notices: seq<Notice>)
    requires notices != [] && notices[0].Best?
    ensures Blocks(notices) != [] && Blocks(notices)[0] == notices[0].block
  {
    if |notices| > 1 {
      FirstBlock(notices[..|notices| - 1]);
    } else {
      assert notices[..0] == [];
    }
  }
}
