/**
 * The list-based "blockchain" script: a module-level list that grows by one
 * block per transaction, where every block is the pair
 * `[last_transaction, transaction_amount]` and `last_transaction` is either the
 * default `[1]` or the whole previous block.
 */
module Blockchain {
  import opened Wrappers

  /** A value that can stand in the first slot of a block: the default `[1]`
      (`Seed`) or a block `[prev, amount]` (`Blk`). */
  datatype Link = Seed | Blk(prev: Link, amount: real)

  /** One line of console input to the menu loop: the choice typed, and the
      amount typed next, which is only read when the choice is "1". */
  datatype Input = Input(choice: string, amount: real)

  /** Number of blocks nested in a link (`[1]` has none). */
  function Depth(l: Link): nat
  {
    match l
    case Seed => 0
    case Blk(p, _) => Depth(p) + 1
  }

  /** The linking invariant: the first block holds `[1]` and every later block
      holds its predecessor as its first component. */
  ghost predicate Linked(chain: seq<Link>)
  {
    && chain != []
    && (forall i :: 0 <= i < |chain| ==> chain[i].Blk?)
    && chain[0].prev == Seed
    && (forall i :: 0 < i < |chain| ==> chain[i].prev == chain[i - 1])
  }

  /** The chain a block spells out by following its first components down to `[1]`. */
  function History(l: Link): (h: seq<Link>)
    ensures |h| == Depth(l)
    ensures forall k :: 0 <= k < |h| ==> h[k].Blk? && Depth(h[k]) == k + 1
  {
    match l
    case Seed => []
    case Blk(p, _) => History(p) + [l]
  }

  /** One pass of the menu loop on the chain: choice "1" appends a block whose
      first component is the current last block; any other choice only prints.
      With "1" on an empty chain the read of the last block raises IndexError
      and nothing is appended (see `StepRaises`). */
  function Step(chain: seq<Link>, choice: string, amount: real): (r: seq<Link>)
    ensures |r| == if choice == "1" && chain != [] then |chain| + 1 else |chain|
    ensures r[..|chain|] == chain
    ensures |r| > |chain| ==> r[|chain|] == Blk(chain[|chain| - 1], amount)
  {
    if choice == "1" && chain != [] then chain + [Blk(chain[|chain| - 1], amount)]
    else chain
  }

  /** Whether a pass of the menu loop raises IndexError reading the last block. */
  predicate StepRaises(chain: seq<Link>, choice: string)
  {
    choice == "1" && chain == []
  }

  /** The chain after the first transaction and then the given passes of the menu loop. */
  function Replay(first: real, inputs: seq<Input>): (r: seq<Link>)
    ensures |r| >= 1 && r[0] == Blk(Seed, first)
  {
    if inputs == [] then [Blk(Seed, first)]
    else
      var last := inputs[|inputs| - 1];
      Step(Replay(first, inputs[..|inputs| - 1]), last.choice, last.amount)
  }

  /** The amounts of the inputs that add a block, in order. */
  function AddedAmounts(inputs: seq<Input>): seq<real>
  {
    if inputs == [] then []
    else
      var last := inputs[|inputs| - 1];
      AddedAmounts(inputs[..|inputs| - 1]) + (if last.choice == "1" then [last.amount] else [])
  }

  /** The amounts stored in a chain of blocks, in chain order. */
  function Amounts(chain: seq<Link>): (r: seq<real>)
    requires forall i :: 0 <= i < |chain| ==> chain[i].Blk?
    ensures |r| == |chain|
  {
    if chain == [] then [] else Amounts(chain[..|chain| - 1]) + [chain[|chain| - 1].amount]
  }

  /** The module-level state of the script: the list `blockchain`. */
  class Ledger {
    var blockchain: seq<Link>

    /** `blockchain = []` */
    constructor ()
      ensures blockchain == []
    {
      blockchain := [];
    }

    /** `get_last_bloackchain_value`: the last block, or `None` where Python
        raises IndexError on the empty list. */
    method GetLastBlockchainValue() returns (r: Option<Link>)
      ensures r.None? <==> blockchain == []
      ensures r.Some? ==> r.value == blockchain[|blockchain| - 1]
    {
      if |blockchain| == 0 {
        r := None;
      } else {
        r := Some(blockchain[|blockchain| - 1]);
      }
    }

    /** `add_value`: appends `[last_transaction, transaction_amount]`; the
        default `last_transaction` is `[1]`. */
    method AddValue(transactionAmount: real, lastTransaction: Link := Seed)
      modifies this
      ensures blockchain == old(blockchain) + [Blk(lastTransaction, transactionAmount)]
    {
      blockchain := blockchain + [Blk(lastTransaction, transactionAmount)];
    }

    /** `print_blockchain_elements`: the blocks it outputs, one per iteration, in order. */
    method PrintBlockchainElements() returns (printed: seq<Link>)
      ensures printed == blockchain
    {
      printed := [];
      var i := 0;
      while i < |blockchain|
        invariant 0 <= i <= |blockchain|
        invariant printed == blockchain[..i]
      {
        printed := printed + [blockchain[i]];
        i := i + 1;
      }
    }

    /** One pass of the `while True` menu loop, given the choice and the amount typed. */
    method MenuStep(choice: string, amount: real) returns (raised: bool)
      modifies this
      ensures raised == StepRaises(old(blockchain), choice)
      ensures blockchain == Step(old(blockchain), choice, amount)
    {
      raised := false;
      if choice == "1" {
        var last := GetLastBlockchainValue();
        if last.None? {
          raised := true;
        } else {
          AddValue(amount, last.value);
        }
      } else {
        var _ := PrintBlockchainElements();
      }
    }

    /** The script from the empty list: the first transaction, then the menu
        loop for as many passes as there are inputs. */
    method RunScript(first: real, inputs: seq<Input>)
      requires blockchain == []
      modifies this
      ensures blockchain == Replay(first, inputs)
      ensures Linked(blockchain)
    {
      AddValue(first);
      assert blockchain == [Blk(Seed, first)];
      var i := 0;
      while i < |inputs|
        invariant 0 <= i <= |inputs|
        invariant blockchain == Replay(first, inputs[..i])
        invariant Linked(blockchain)
      {
        var raised := MenuStep(inputs[i].choice, inputs[i].amount);
        assert inputs[..i + 1][..i] == inputs[..i];
        StepKeepsLinked(Replay(first, inputs[..i]), inputs[i].choice, inputs[i].amount);
        i := i + 1;
      }
      assert inputs[..i] == inputs;
    }
  }

  /** A pass of the menu loop preserves the linking invariant and never raises on a linked chain. */
  lemma StepKeepsLinked(chain: seq<Link>, choice: string, amount: real)
    requires Linked(chain)
    ensures !StepRaises(chain, choice)
    ensures Linked(Step(chain, choice, amount))
  {
  }

  /** Any choice other than "1" leaves the chain as it was. */
  lemma OtherChoiceKeepsChain(chain: seq<Link>, choice: string, amount: real)
    requires choice != "1"
    ensures Step(chain, choice, amount) == chain
  {
  }

  /** Every chain the script can build satisfies the linking invariant. */
  lemma {:induction false} ReplayLinked(first: real, inputs: seq<Input>)
    ensures Linked(Replay(first, inputs))
  {
    if inputs != [] {
      var last := inputs[|inputs| - 1];
      ReplayLinked(first, inputs[..|inputs| - 1]);
      StepKeepsLinked(Replay(first, inputs[..|inputs| - 1]), last.choice, last.amount);
    }
  }

  /** The chain holds the first amount and then exactly the amounts entered with choice "1". */
  lemma {:induction false} ReplayAmounts(first: real, inputs: seq<Input>)
    ensures Linked(Replay(first, inputs))
    ensures Amounts(Replay(first, inputs)) == [first] + AddedAmounts(inputs)
  {
    ReplayLinked(first, inputs);
    if inputs != [] {
      var front := inputs[..|inputs| - 1];
      var last := inputs[|inputs| - 1];
      var c := Replay(first, front);
      ReplayAmounts(first, front);
      if last.choice == "1" {
        var c' := c + [Blk(c[|c| - 1], last.amount)];
        assert c'[..|c'| - 1] == c;
      }
    }
  }

  /** The last block of a linked chain nests the whole chain: following first
      components from it recovers every block, in order. */
  lemma {:induction false} HistoryOfLast(chain: seq<Link>)
    requires Linked(chain)
    ensures History(chain[|chain| - 1]) == chain
  {
    if |chain| > 1 {
      var front := chain[..|chain| - 1];
      assert Linked(front);
      HistoryOfLast(front);
    }
  }

  /** Conversely, the history of any block is a linked chain that ends in that block. */
  lemma {:induction false} HistoryLinked(l: Link)
    requires l.Blk?
    ensures Linked(History(l)) && History(l)[|History(l)| - 1] == l
  {
    if l.prev.Blk? {
      HistoryLinked(l.prev);
    }
  }

  /** A chain is linked exactly when it is the history of its own last block. */
  lemma LinkedIffHistory(chain: seq<Link>)
    ensures Linked(chain) <==>
      chain != [] && chain[|chain| - 1].Blk? && History(chain[|chain| - 1]) == chain
  {
    if Linked(chain) {
      HistoryOfLast(chain);
    }
    if chain != [] && chain[|chain| - 1].Blk? && History(chain[|chain| - 1]) == chain {
      HistoryLinked(chain[|chain| - 1]);
    }
  }

  /** In a linked chain block k nests exactly k + 1 blocks, so no block repeats. */
  lemma {:induction false} LinkedDepths(chain: seq<Link>)
    requires Linked(chain)
    ensures forall k :: 0 <= k < |chain| ==> Depth(chain[k]) == k + 1
    ensures forall i, j :: 0 <= i < j < |chain| ==> chain[i] != chain[j]
  {
    HistoryOfLast(chain);
  }
}
