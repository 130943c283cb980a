/** What other processes do to the registry beside one batch: any calls about
    other batches and other attempts.  Nothing the batch reads is touched. */
module ForeignCalls {
  import opened Exact
  import opened BatchRecords
  import opened Registry
  import opened BatchState

  /** One of the attempts of an inventory. */
  predicate Own(inventory: seq<Item>, attempt: string)
  {
    exists i: nat :: i < |inventory| && inventory[i].attempt == Some(attempt)
  }

  /** A call about another batch or another attempt: the identifiers of a batch are drawn at random. */
  predicate Foreign(c: Call, id: string, inventory: seq<Item>)
  {
    match c
    case Reserve(b) => b.id != id
    case Start(attempt, _) => !Own(inventory, attempt)
    case Finish(attempt, _) => !Own(inventory, attempt)
    case FinishJob(other, _, _) => other != id
    case Close(other, _) => other != id
  }

  predicate AllForeign(calls: seq<Call>, id: string, inventory: seq<Item>) { forall c <- calls :: Foreign(c, id, inventory) }

  /** What others may do before each durable effect to come. */
  predicate Polite(others: seq<seq<Call>>, id: string, inventory: seq<Item>)
  {
    forall calls <- others :: AllForeign(calls, id, inventory)
  }

  lemma PoliteNext(others: seq<seq<Call>>, id: string, inventory: seq<Item>)
    requires Polite(others, id, inventory) && others != []
    ensures AllForeign(others[0], id, inventory) && Polite(others[1..], id, inventory)
  {
    hide AllForeign;
  }

  lemma ForeignAt(calls: seq<Call>, i: nat, id: string, inventory: seq<Item>)
    requires AllForeign(calls, id, inventory) && i < |calls|
    ensures Foreign(calls[i], id, inventory)
  {
    hide Foreign;
  }

  /** Everything the registry holds about a batch is the same. */
  ghost predicate SameRows(t: Tables, u: Tables, id: string, inventory: seq<Item>)
  {
    && Find(u.batches, id) == Find(t.batches, id) && JobsOf(u, id) == JobsOf(t, id) && Get(u.closings, id) == Get(t.closings, id)
    && forall a :: Own(inventory, a) ==> Get(u.attempts, a) == Get(t.attempts, a) && Get(u.verdicts, a) == Get(t.verdicts, a)
  }

  lemma SameRowsSelf(t: Tables, id: string, inventory: seq<Item>)
    ensures SameRows(t, t, id, inventory)
  {}

  lemma SameRowsThrough(t: Tables, u: Tables, v: Tables, id: string, inventory: seq<Item>)
    requires SameRows(t, u, id, inventory) && SameRows(u, v, id, inventory)
    ensures SameRows(t, v, id, inventory)
  {
    hide Own, Find, Get;
  }

  /** A foreign call leaves every row of the batch as it was, whatever it comes to. */
  lemma ForeignKeeps(t: Tables, c: Call, id: string, inventory: seq<Item>)
    requires Foreign(c, id, inventory)
    ensures SameRows(t, After(t, c), id, inventory)
  {
    hide Own, Rejection, IsToken, IsDigest, VersionOpen, ShaValidated, VersionUntouched, Find, Get;
    match c
    case Reserve(b) => OtherReserveKeeps(t, b, id, inventory);
    case Start(attempt, terms) => OtherStartKeeps(t, attempt, terms, id, inventory);
    case Finish(attempt, verdict) => OtherFinishKeeps(t, attempt, verdict, id, inventory);
    case FinishJob(other, index, job) =>
    case Close(other, closing) => OtherCloseKeeps(t, other, closing, id, inventory);
  }

  lemma OtherReserveKeeps(t: Tables, b: Batch, id: string, inventory: seq<Item>)
    requires b.id != id
    ensures SameRows(t, After(t, Reserve(b)), id, inventory)
  {
    hide Own, Rejection, IsToken, IsDigest, Find, Get;
    FindAppend(t.batches, b, id);
  }

  lemma OtherStartKeeps(t: Tables, attempt: string, terms: Attempt, id: string, inventory: seq<Item>)
    requires !Own(inventory, attempt)
    ensures SameRows(t, After(t, Start(attempt, terms)), id, inventory)
  {
    hide Own, IsToken, VersionOpen, ShaValidated, VersionUntouched, Find;
  }

  lemma OtherFinishKeeps(t: Tables, attempt: string, verdict: Verdict, id: string, inventory: seq<Item>)
    requires !Own(inventory, attempt)
    ensures SameRows(t, After(t, Finish(attempt, verdict)), id, inventory)
  {
    hide Own, IsToken, Find;
  }

  lemma OtherCloseKeeps(t: Tables, other: string, closing: Closing, id: string, inventory: seq<Item>)
    requires other != id
    ensures SameRows(t, After(t, Close(other, closing)), id, inventory)
  {
    hide Own, Find;
  }

  /** The slots of a batch are made of its own rows and files. */
  lemma SameSlot(s: Store, u: Tables, id: string, inventory: seq<Item>, i: nat)
    requires SameRows(s.t, u, id, inventory) && i < |inventory|
    ensures SlotAt(s.(t := u), id, inventory, i) == SlotAt(s, id, inventory, i)
  {
    hide Get, Find;
    if inventory[i].attempt.Some? {
      assert Own(inventory, inventory[i].attempt.value);
    }
  }

  lemma SameSlots(s: Store, u: Tables, id: string, inventory: seq<Item>)
    requires SameRows(s.t, u, id, inventory)
    ensures forall i: nat :: i < |inventory| ==> SlotAt(s.(t := u), id, inventory, i) == SlotAt(s, id, inventory, i)
  {
    hide SameRows, SlotAt;
    forall i: nat | i < |inventory|
      ensures SlotAt(s.(t := u), id, inventory, i) == SlotAt(s, id, inventory, i)
    {
      SameSlot(s, u, id, inventory, i);
    }
  }

  /** So is its summary. */
  lemma UndisturbedSummary(t: Tables, u: Tables, id: string, inventory: seq<Item>)
    requires SameRows(t, u, id, inventory)
    ensures SummaryOf(u.attempts, u.verdicts, JobsOf(u, id), id, inventory) == SummaryOf(t.attempts, t.verdicts, JobsOf(t, id), id, inventory)
  {
    hide JobList, StatusOf, Find;
    forall i: nat | i < |inventory| && inventory[i].attempt.Some?
      ensures inventory[i].attempt.value in t.attempts <==> inventory[i].attempt.value in u.attempts
      ensures inventory[i].attempt.value in t.verdicts <==> inventory[i].attempt.value in u.verdicts
    {
      assert Own(inventory, inventory[i].attempt.value);
    }
    CountAgrees(inventory, (x: Item) => x.attempt.Some? && x.attempt.value in t.attempts,
                (x: Item) => x.attempt.Some? && x.attempt.value in u.attempts);
    CountAgrees(inventory, (x: Item) => x.attempt.Some? && x.attempt.value in t.attempts && x.attempt.value in t.verdicts,
                (x: Item) => x.attempt.Some? && x.attempt.value in u.attempts && x.attempt.value in u.verdicts);
  }

  /** A consistent batch stays consistent, and a finished one finished, under foreign calls. */
  lemma ConsistentStays(s: Store, u: Tables, id: string, inventory: seq<Item>)
    requires Consistent(s, id, inventory) && SameRows(s.t, u, id, inventory)
    ensures Consistent(s.(t := u), id, inventory)
    ensures Finished(s, id, inventory) ==> Finished(s.(t := u), id, inventory)
  {
    hide WellFormed, SummaryOf, StatusOf, SlotOk, SlotAt, Find, Own;
    SameSlots(s, u, id, inventory);
    UndisturbedSummary(s.t, u, id, inventory);
  }
}
