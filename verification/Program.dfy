/**
 Operation programs, as far as their inline transactions go: what lists them in program order, and
 what reaches one by id to change it.
 */
module Program {
  import opened Common

  type Id = nat

  // The content of a declared requirement.
  type Content = nat

  /** An inline transaction; `steps` stands for everything of it but its requirements. */
  datatype Transaction = Transaction(id: Id, steps: nat, serializability: seq<Content>, ordering: seq<Content>)

  datatype Block = Block(steps: seq<Step>)

  datatype Step =
    | Transact(transaction: Transaction, rejected: Option<Block>)
    | MatchResult(ok: Block, errors: seq<Block>)
    | Branch(onTrue: Block, otherwise: Option<Block>)
    | Plain(step: nat)

  /** Every inline transaction of a block, depth first in program order. */
  function Transactions(block: Block): seq<Transaction> {
    OfSteps(block.steps)
  }

  function OfSteps(steps: seq<Step>): seq<Transaction> {
    if steps == [] then [] else OfStep(steps[0]) + OfSteps(steps[1..])
  }

  function OfStep(step: Step): seq<Transaction> {
    match step
    case Transact(transaction, rejected) => [transaction] + OfOption(rejected)
    case MatchResult(ok, errors) => Transactions(ok) + OfBlocks(errors)
    case Branch(onTrue, otherwise) => Transactions(onTrue) + OfOption(otherwise)
    case Plain(_) => []
  }

  function OfOption(block: Option<Block>): seq<Transaction> {
    match block
    case None => []
    case Some(b) => Transactions(b)
  }

  function OfBlocks(blocks: seq<Block>): seq<Transaction> {
    if blocks == [] then [] else Transactions(blocks[0]) + OfBlocks(blocks[1..])
  }

  /** The place of the first transaction with an id, or past the end. */
  function FirstAt(list: seq<Transaction>, id: Id): (at: nat)
    ensures at <= |list|
    ensures at < |list| ==> list[at].id == id
    ensures forall i :: 0 <= i < at ==> list[i].id != id
  {
    if list == [] || list[0].id == id then 0 else 1 + FirstAt(list[1..], id)
  }

  predicate Has(list: seq<Transaction>, id: Id) {
    FirstAt(list, id) < |list|
  }

  /** The inline transaction with an id, wherever it sits in the program. */
  function Find(block: Block, id: Id): Option<Transaction> {
    var list := Transactions(block);
    if Has(list, id) then Some(list[FirstAt(list, id)]) else None
  }

  predicate Contains(block: Block, id: Id) {
    Find(block, id).Some?
  }

  predicate StepContains(step: Step, id: Id) {
    match step
    case Transact(transaction, rejected) => transaction.id == id || (rejected.Some? && Contains(rejected.value, id))
    case MatchResult(ok, errors) => Contains(ok, id) || exists i :: 0 <= i < |errors| && Contains(errors[i], id)
    case Branch(onTrue, otherwise) => Contains(onTrue, id) || (otherwise.Some? && Contains(otherwise.value, id))
    case Plain(_) => false
  }

  /** The block with the transaction reached by an id put in place: by the first step that contains it. */
  function Update(block: Block, id: Id, transaction: Transaction): Block {
    Block(UpdateSteps(block.steps, id, transaction))
  }

  function UpdateSteps(steps: seq<Step>, id: Id, transaction: Transaction): seq<Step> {
    if steps == [] then []
    else if StepContains(steps[0], id) then [UpdateStep(steps[0], id, transaction)] + steps[1..]
    else [steps[0]] + UpdateSteps(steps[1..], id, transaction)
  }

  function UpdateStep(step: Step, id: Id, transaction: Transaction): Step {
    match step
    case Transact(own, rejected) =>
      if own.id == id then Transact(transaction, rejected) else Transact(own, UpdateOption(rejected, id, transaction))
    case MatchResult(ok, errors) =>
      if Contains(ok, id) then MatchResult(Update(ok, id, transaction), errors)
      else MatchResult(ok, UpdateBlocks(errors, id, transaction))
    case Branch(onTrue, otherwise) =>
      if Contains(onTrue, id) then Branch(Update(onTrue, id, transaction), otherwise)
      else Branch(onTrue, UpdateOption(otherwise, id, transaction))
    case Plain(_) => step
  }

  function UpdateOption(block: Option<Block>, id: Id, transaction: Transaction): Option<Block> {
    match block
    case None => None
    case Some(b) => Some(Update(b, id, transaction))
  }

  function UpdateBlocks(blocks: seq<Block>, id: Id, transaction: Transaction): seq<Block> {
    if blocks == [] then []
    else if Contains(blocks[0], id) then [Update(blocks[0], id, transaction)] + blocks[1..]
    else [blocks[0]] + UpdateBlocks(blocks[1..], id, transaction)
  }

  /** The list with its first transaction of an id put in place. */
  function Put(list: seq<Transaction>, id: Id, transaction: Transaction): seq<Transaction> {
    if Has(list, id) then list[FirstAt(list, id) := transaction] else list
  }

  lemma {:induction false} FirstOfBoth(a: seq<Transaction>, b: seq<Transaction>, id: Id)
    ensures FirstAt(a + b, id) == if Has(a, id) then FirstAt(a, id) else |a| + FirstAt(b, id)
  {
    if a == [] {
      assert a + b == b;
    } else {
      assert (a + b)[1..] == a[1..] + b;
      FirstOfBoth(a[1..], b, id);
    }
  }

  lemma PutInBoth(a: seq<Transaction>, b: seq<Transaction>, id: Id, transaction: Transaction)
    ensures Has(a + b, id) <==> Has(a, id) || Has(b, id)
    ensures Put(a + b, id, transaction) ==
            if Has(a, id) then Put(a, id, transaction) + b else a + Put(b, id, transaction)
  {
    FirstOfBoth(a, b, id);
  }

  lemma {:induction false} BlocksHave(blocks: seq<Block>, id: Id)
    ensures Has(OfBlocks(blocks), id) <==> exists i :: 0 <= i < |blocks| && Contains(blocks[i], id)
  {
    if blocks != [] {
      PutInBoth(Transactions(blocks[0]), OfBlocks(blocks[1..]), id, Transaction(0, 0, [], []));
      BlocksHave(blocks[1..], id);
      if exists i :: 0 <= i < |blocks| && Contains(blocks[i], id) {
        var i :| 0 <= i < |blocks| && Contains(blocks[i], id);
        if i > 0 { assert Contains(blocks[1..][i - 1], id); }
      }
      if exists i :: 0 <= i < |blocks[1..]| && Contains(blocks[1..][i], id) {
        var i :| 0 <= i < |blocks[1..]| && Contains(blocks[1..][i], id);
        assert Contains(blocks[i + 1], id);
      }
    }
  }

  lemma StepHas(step: Step, id: Id)
    ensures StepContains(step, id) <==> Has(OfStep(step), id)
  {
    hide FirstAt;
    match step
    case Transact(transaction, rejected) =>
      PutInBoth([transaction], OfOption(rejected), id, transaction);
      OneHas(transaction, id);
      NoneHas(id);
    case MatchResult(ok, errors) =>
      PutInBoth(Transactions(ok), OfBlocks(errors), id, Transaction(0, 0, [], []));
      BlocksHave(errors, id);
    case Branch(onTrue, otherwise) =>
      PutInBoth(Transactions(onTrue), OfOption(otherwise), id, Transaction(0, 0, [], []));
      NoneHas(id);
    case Plain(_) => NoneHas(id);
  }

  lemma OneHas(transaction: Transaction, id: Id)
    ensures Has([transaction], id) <==> transaction.id == id
    ensures forall t :: Put([transaction], id, t) == if transaction.id == id then [t] else [transaction]
  {
  }

  lemma NoneHas(id: Id)
    ensures !Has([], id)
  {
  }

  /**
   Reaching a transaction to change it and finding one to read agree, through decisions and rejection
   blocks: the update changes exactly the first transaction of that id in program order.
   */
  lemma {:induction false} UpdateIsPut(block: Block, id: Id, transaction: Transaction)
    ensures Transactions(Update(block, id, transaction)) == Put(Transactions(block), id, transaction)
  {
    StepsPut(block.steps, id, transaction);
  }

  lemma {:induction false} StepsPut(steps: seq<Step>, id: Id, transaction: Transaction)
    ensures OfSteps(UpdateSteps(steps, id, transaction)) == Put(OfSteps(steps), id, transaction)
  {
    hide Has, Put, OfStep, StepContains;
    if steps == [] {
      PutNone(id, transaction);
    } else {
      var step, rest := steps[0], steps[1..];
      StepHas(step, id);
      PutInBoth(OfStep(step), OfSteps(rest), id, transaction);
      if StepContains(step, id) {
        StepPut(step, id, transaction);
        var after := UpdateStep(step, id, transaction);
        assert ([after] + rest)[1..] == rest;
      } else {
        StepsPut(rest, id, transaction);
        assert ([step] + UpdateSteps(rest, id, transaction))[1..] == UpdateSteps(rest, id, transaction);
      }
    }
  }

  lemma PutNone(id: Id, transaction: Transaction)
    ensures Put([], id, transaction) == []
  {
  }

  lemma {:induction false} StepPut(step: Step, id: Id, transaction: Transaction)
    requires StepContains(step, id)
    ensures OfStep(UpdateStep(step, id, transaction)) == Put(OfStep(step), id, transaction)
  {
    hide Has, Put, Transactions;
    match step
    case Transact(own, rejected) =>
      PutInBoth([own], OfOption(rejected), id, transaction);
      OneHas(own, id);
      if own.id != id { UpdateIsPut(rejected.value, id, transaction); }
    case MatchResult(ok, errors) =>
      PutInBoth(Transactions(ok), OfBlocks(errors), id, transaction);
      ContainsHas(ok, id);
      if Contains(ok, id) { UpdateIsPut(ok, id, transaction); } else { BlocksPut(errors, id, transaction); }
    case Branch(onTrue, otherwise) =>
      PutInBoth(Transactions(onTrue), OfOption(otherwise), id, transaction);
      ContainsHas(onTrue, id);
      if Contains(onTrue, id) {
        UpdateIsPut(onTrue, id, transaction);
      } else {
        UpdateIsPut(otherwise.value, id, transaction);
      }
  }

  lemma ContainsHas(block: Block, id: Id)
    ensures Contains(block, id) <==> Has(Transactions(block), id)
  {
  }

  lemma {:induction false} BlocksPut(blocks: seq<Block>, id: Id, transaction: Transaction)
    ensures OfBlocks(UpdateBlocks(blocks, id, transaction)) == Put(OfBlocks(blocks), id, transaction)
  {
    hide Has, Put, Transactions;
    if blocks == [] {
      PutNone(id, transaction);
    } else {
      var block, rest := blocks[0], blocks[1..];
      PutInBoth(Transactions(block), OfBlocks(rest), id, transaction);
      ContainsHas(block, id);
      if Contains(block, id) {
        UpdateIsPut(block, id, transaction);
        assert ([Update(block, id, transaction)] + rest)[1..] == rest;
      } else {
        BlocksPut(rest, id, transaction);
        assert ([block] + UpdateBlocks(rest, id, transaction))[1..] == UpdateBlocks(rest, id, transaction);
      }
    }
  }
}
