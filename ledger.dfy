/**
 * The server's transaction ledger (`transactionController.js`): the guard chain
 * of `addTransaction`, the owner-scoped lookup, update and delete, the
 * date-ordered listing, and the income/expense fold of `getSummary`.
 *
 * Amounts are integers in minor units, so every sum is exact; dates are integer
 * timestamps and "now" is a parameter. The caller's user id is the one the
 * authentication middleware attached to the request.
 */
module Ledger {
  import opened Wrappers
  import Seqs
  import UserModel

  type TxId = nat

  /** A stored transaction document. */
  datatype Transaction = Transaction(
    id: TxId,
    userId: UserModel.UserId,
    amount: int,
    txType: string,
    category: string,
    note: Option<string>,
    date: int)

  /** The JSON body of an add request; a field absent from it (or an empty date string) is `None`. */
  datatype AddRequest = AddRequest(
    amount: Option<int>,
    txType: Option<string>,
    category: Option<string>,
    note: Option<string>,
    date: Option<int>)

  /** The categories `addTransaction` accepts. */
  const ValidCategories: seq<string> := ["Food", "Travel", "Salary", "Shopping", "Other"]

  /** The rule an add request broke; each one is answered with status 400. */
  datatype AddError = MissingFields | ExpenseNotNegative | IncomeNotPositive | InvalidCategory | FutureDate

  /** The `message` of the 400 answer: never empty. */
  function ErrorMessage(e: AddError): (m: string)
    ensures m != ""
  {
    match e
    case MissingFields => "All fields are required"
    case ExpenseNotNegative => "Expense amount should be negative"
    case IncomeNotPositive => "Income amount should be positive"
    case InvalidCategory => "Invalid category"
    case FutureDate => "Date cannot be in the future"
  }

  /** JavaScript truthiness: a missing amount and an amount of 0 are both falsy. */
  predicate AmountPresent(a: Option<int>) {
    a.Some? && a.value != 0
  }

  /** JavaScript truthiness: a missing string and the empty string are both falsy. */
  predicate TextPresent(s: Option<string>) {
    s.Some? && s.value != ""
  }

  predicate AllPresent(b: AddRequest) {
    AmountPresent(b.amount) && TextPresent(b.txType) && TextPresent(b.category) && b.date.Some?
  }

  /** The sign convention of the ledger: expenses negative, income positive, other types unconstrained. */
  predicate SignMatchesType(amount: int, txType: string) {
    (txType == "expense" ==> amount < 0) && (txType == "income" ==> amount > 0)
  }

  /** What an acceptable add request is, stated as one conjunction rather than as a chain of guards. */
  predicate Acceptable(b: AddRequest, now: int) {
    && AllPresent(b)
    && SignMatchesType(b.amount.value, b.txType.value)
    && b.category.value in ValidCategories
    && b.date.value <= now
  }

  /**
   * The guard chain of `addTransaction`: the first failing check names the
   * error, and a request passes exactly when it is acceptable.
   */
  function CheckAdd(b: AddRequest, now: int): (r: Option<AddError>)
    ensures r.None? <==> Acceptable(b, now)
    ensures r == Some(MissingFields) <==> !AllPresent(b)
    ensures r == Some(ExpenseNotNegative) <==>
      AllPresent(b) && b.txType.value == "expense" && b.amount.value > 0
    ensures r == Some(IncomeNotPositive) <==>
      AllPresent(b) && b.txType.value == "income" && b.amount.value < 0
    ensures r == Some(InvalidCategory) <==>
      AllPresent(b) && SignMatchesType(b.amount.value, b.txType.value) && b.category.value !in ValidCategories
    ensures r == Some(FutureDate) <==>
      && AllPresent(b) && SignMatchesType(b.amount.value, b.txType.value)
      && b.category.value in ValidCategories && b.date.value > now
  {
    if !AllPresent(b) then Some(MissingFields)
    else if b.txType.value == "expense" && b.amount.value > 0 then Some(ExpenseNotNegative)
    else if b.txType.value == "income" && b.amount.value < 0 then Some(IncomeNotPositive)
    else if b.category.value !in ValidCategories then Some(InvalidCategory)
    else if b.date.value > now then Some(FutureDate)
    else None
  }

  /** The answer to an add request: 201 with the stored record, or 400 with the broken rule. */
  datatype AddResponse = Created(transaction: Transaction) | Rejected(error: AddError)

  /** The HTTP status of the answer: 201 for a stored record, 400 for a broken rule, nothing else. */
  function AddStatus(r: AddResponse): (status: int)
    ensures status == 201 <==> r.Created?
    ensures status == 400 <==> r.Rejected?
  {
    if r.Created? then 201 else 400
  }

  /** Each broken rule has its own message, so the client can tell which guard refused the request. */
  lemma ErrorMessagesDistinct(e1: AddError, e2: AddError)
    ensures ErrorMessage(e1) == ErrorMessage(e2) <==> e1 == e2
  {
    assert |ErrorMessage(e1)| == |ErrorMessage(e2)| ==> e1 == e2;
  }

  /** The JSON body of an update request: every field it carries overwrites the stored one. */
  datatype Patch = Patch(
    userId: Option<UserModel.UserId>,
    amount: Option<int>,
    txType: Option<string>,
    category: Option<string>,
    note: Option<string>,
    date: Option<int>)

  /** `findOneAndUpdate` with the request body: fields present are overwritten, with no validation. */
  function ApplyPatch(t: Transaction, p: Patch): (r: Transaction)
    ensures r.id == t.id
    ensures r.userId == (if p.userId.Some? then p.userId.value else t.userId)
    ensures r.amount == (if p.amount.Some? then p.amount.value else t.amount)
    ensures r.txType == (if p.txType.Some? then p.txType.value else t.txType)
    ensures r.category == (if p.category.Some? then p.category.value else t.category)
    ensures r.note == (if p.note.Some? then p.note else t.note)
    ensures r.date == (if p.date.Some? then p.date.value else t.date)
  {
    t.(userId := p.userId.GetOr(t.userId),
       amount := p.amount.GetOr(t.amount),
       txType := p.txType.GetOr(t.txType),
       category := p.category.GetOr(t.category),
       note := if p.note.Some? then p.note else t.note,
       date := p.date.GetOr(t.date))
  }

  /** The filter `{ _id: id, userId: caller }`. */
  predicate Targets(t: Transaction, id: TxId, caller: UserModel.UserId) {
    t.id == id && t.userId == caller
  }

  function OwnedBy(caller: UserModel.UserId): Transaction -> bool {
    (t: Transaction) => t.userId == caller
  }

  function HasType(txType: string): Transaction -> bool {
    (t: Transaction) => t.txType == txType
  }

  function Spares(id: TxId, caller: UserModel.UserId): Transaction -> bool {
    (t: Transaction) => !Targets(t, id, caller)
  }

  /** The query `{ userId: caller }`. */
  function Owned(rs: seq<Transaction>, caller: UserModel.UserId): seq<Transaction> {
    Seqs.Filter(OwnedBy(caller), rs)
  }

  predicate DistinctIds(rs: seq<Transaction>) {
    forall i, j :: 0 <= i < j < |rs| ==> rs[i].id != rs[j].id
  }

  /** Removing the record at `i` keeps identities distinct and below `bound`. */
  lemma RemoveAtKeepsIds(rs: seq<Transaction>, i: nat, bound: nat, r: seq<Transaction>)
    requires i < |rs| && DistinctIds(rs)
    requires forall j :: 0 <= j < |rs| ==> rs[j].id < bound
    requires r == rs[..i] + rs[i + 1..]
    ensures DistinctIds(r)
    ensures forall j :: 0 <= j < |r| ==> r[j].id < bound
  {
    assert forall j :: 0 <= j < |r| ==> r[j] == rs[if j < i then j else j + 1];
  }

  /** The position of the first record matching both `_id` and `userId`, if any. */
  function FindTarget(rs: seq<Transaction>, id: TxId, caller: UserModel.UserId): (r: Option<nat>)
    ensures r.Some? ==> r.value < |rs| && Targets(rs[r.value], id, caller)
    ensures r.Some? ==> forall i :: 0 <= i < r.value ==> !Targets(rs[i], id, caller)
    ensures r.None? ==> forall i :: 0 <= i < |rs| ==> !Targets(rs[i], id, caller)
  {
    if rs == [] then None
    else if Targets(rs[0], id, caller) then Some(0)
    else match FindTarget(rs[1..], id, caller)
      case None => None
      case Some(k) => Some(k + 1)
  }

  /**
   * `reduce((acc, t) => acc + t.amount, 0)`, folding from the left: a single
   * record sums to its amount, and amounts all of one sign sum to that sign.
   */
  function SumAmounts(ts: seq<Transaction>): (r: int)
    ensures |ts| == 1 ==> r == ts[0].amount
    ensures (forall i :: 0 <= i < |ts| ==> ts[i].amount <= 0) ==> r <= 0
    ensures (forall i :: 0 <= i < |ts| ==> ts[i].amount >= 0) ==> r >= 0
  {
    if ts == [] then 0 else SumAmounts(ts[..|ts| - 1]) + ts[|ts| - 1].amount
  }

  datatype Summary = Summary(income: int, expense: int, balance: int, totalTransactions: nat)

  /**
   * The summary of a set of records: income and expense are the sums of the
   * amounts of the records of each type (expense stays negative), the balance
   * adds the two, and the count is the number of records.
   */
  function SummaryOf(ts: seq<Transaction>): (r: Summary)
    ensures r.balance == r.income + r.expense
    ensures r.totalTransactions == |ts|
  {
    var income := SumAmounts(Seqs.Filter(HasType("income"), ts));
    var expense := SumAmounts(Seqs.Filter(HasType("expense"), ts));
    Summary(income, expense, income + expense, |ts|)
  }

  predicate SortedByDateDesc(ts: seq<Transaction>) {
    forall i, j :: 0 <= i < j < |ts| ==> ts[i].date >= ts[j].date
  }

  /** A record no older than the head of a sorted run can go in front of it. */
  lemma SortedCons(t: Transaction, ts: seq<Transaction>)
    requires SortedByDateDesc(ts)
    requires ts == [] || t.date >= ts[0].date
    ensures SortedByDateDesc([t] + ts)
  {
    var r := [t] + ts;
    assert forall i :: 1 <= i < |r| ==> r[i] == ts[i - 1];
  }

  /** The tail of a sorted run is sorted, and its head is no newer than the run's head. */
  lemma SortedTail(ts: seq<Transaction>)
    requires ts != [] && SortedByDateDesc(ts)
    ensures SortedByDateDesc(ts[1..])
    ensures |ts| > 1 ==> ts[0].date >= ts[1..][0].date
  {
    assert forall i :: 0 <= i < |ts| - 1 ==> ts[1..][i] == ts[i + 1];
  }

  function InsertByDate(t: Transaction, ts: seq<Transaction>): (r: seq<Transaction>)
    requires SortedByDateDesc(ts)
    ensures SortedByDateDesc(r)
    ensures multiset(r) == multiset(ts) + multiset{t}
    ensures |r| == |ts| + 1
    ensures r[0] == t || (ts != [] && r[0] == ts[0])
  {
    if ts == [] || t.date >= ts[0].date then
      SortedCons(t, ts);
      [t] + ts
    else
      SortedTail(ts);
      var rest := InsertByDate(t, ts[1..]);
      assert ts == [ts[0]] + ts[1..];
      SortedCons(ts[0], rest);
      [ts[0]] + rest
  }

  /** `.sort({ date: -1 })`: newest first, and a permutation of the input. */
  function SortByDateDesc(ts: seq<Transaction>): (r: seq<Transaction>)
    ensures SortedByDateDesc(r)
    ensures multiset(r) == multiset(ts)
  {
    if ts == [] then [] else
      assert ts == [ts[0]] + ts[1..];
      InsertByDate(ts[0], SortByDateDesc(ts[1..]))
  }

  /** The transaction collection, as the controller sees it through the model. */
  class LedgerStore {
    var records: seq<Transaction>
    /** The identity the next stored document receives. */
    var nextId: TxId

    ghost predicate Valid()
      reads this
    {
      DistinctIds(records) && forall i :: 0 <= i < |records| ==> records[i].id < nextId
    }

    constructor ()
      ensures Valid() && records == []
    {
      records := [];
      nextId := 0;
    }

    /** `addTransaction`: run the guard chain, then store one record owned by the caller. */
    method Add(caller: UserModel.UserId, body: AddRequest, now: int) returns (resp: AddResponse)
      requires Valid()
      modifies this
      ensures Valid()
      ensures CheckAdd(body, now).Some? ==>
        resp == Rejected(CheckAdd(body, now).value) && records == old(records)
      ensures CheckAdd(body, now).None? ==>
        && resp == Created(Transaction(old(nextId), caller, body.amount.value, body.txType.value,
                                       body.category.value, body.note, body.date.value))
        && records == old(records) + [resp.transaction]
      ensures resp.Created? ==> forall i :: 0 <= i < |old(records)| ==> old(records)[i].id != resp.transaction.id
      ensures nextId == if resp.Created? then old(nextId) + 1 else old(nextId)
    {
      var failure := CheckAdd(body, now);
      if failure.Some? {
        return Rejected(failure.value);
      }
      var t := Transaction(nextId, caller, body.amount.value, body.txType.value,
                           body.category.value, body.note, body.date.value);
      records := records + [t];
      nextId := nextId + 1;
      resp := Created(t);
    }

    /** `getTransactions`: the caller's records, newest first. */
    method List(caller: UserModel.UserId) returns (r: seq<Transaction>)
      ensures SortedByDateDesc(r)
      ensures multiset(r) == multiset(Owned(records, caller))
      ensures forall i :: 0 <= i < |r| ==> r[i].userId == caller
    {
      Seqs.FilterSound(OwnedBy(caller), records);
      r := SortByDateDesc(Owned(records, caller));
      assert forall i :: 0 <= i < |r| ==> r[i] in multiset(Owned(records, caller));
    }

    /** `getTransactionById`: `None` is the 404 "Transaction not found". */
    method GetById(caller: UserModel.UserId, id: TxId) returns (r: Option<Transaction>)
      ensures r.Some? <==> exists i :: 0 <= i < |records| && Targets(records[i], id, caller)
      ensures r.Some? ==> r.value in records && Targets(r.value, id, caller)
    {
      var k := FindTarget(records, id, caller);
      r := if k.Some? then Some(records[k.value]) else None;
    }

    /**
     * `updateTransaction`: overwrite the fields present in the body on the one
     * record matching both `_id` and the caller, and return the updated record;
     * `None` is the 404 and leaves the collection as it was.
     */
    method Update(caller: UserModel.UserId, id: TxId, patch: Patch) returns (r: Option<Transaction>)
      requires Valid()
      modifies this
      ensures Valid() && nextId == old(nextId)
      ensures r.None? <==> forall i :: 0 <= i < |old(records)| ==> !Targets(old(records)[i], id, caller)
      ensures r.None? ==> records == old(records)
      ensures r.Some? ==>
        exists i :: 0 <= i < |old(records)| && Targets(old(records)[i], id, caller)
          && records == old(records)[i := ApplyPatch(old(records)[i], patch)] && r.value == records[i]
    {
      var k := FindTarget(records, id, caller);
      if k.None? {
        return None;
      }
      var updated := ApplyPatch(records[k.value], patch);
      records := records[k.value := updated];
      r := Some(updated);
    }

    /**
     * `deleteTransaction`: remove the record matching both `_id` and the caller;
     * since identities are distinct, that is exactly one record or none.
     */
    method Delete(caller: UserModel.UserId, id: TxId) returns (found: bool)
      requires Valid()
      modifies this
      ensures Valid() && nextId == old(nextId)
      ensures found <==> exists i :: 0 <= i < |old(records)| && Targets(old(records)[i], id, caller)
      ensures records == Seqs.Filter(Spares(id, caller), old(records))
      ensures !found ==> records == old(records)
      ensures found ==>
        exists i :: 0 <= i < |old(records)| && Targets(old(records)[i], id, caller)
          && records == old(records)[..i] + old(records)[i + 1..]
    {
      var k := FindTarget(records, id, caller);
      found := k.Some?;
      if found {
        var i := k.value;
        forall j | 0 <= j < |records| && j != i ensures Spares(id, caller)(records[j]) {
          assert records[j].id != records[i].id;
        }
        Seqs.FilterRemovesOne(Spares(id, caller), records, i);
        RemoveAtKeepsIds(records, i, nextId, records[..i] + records[i + 1..]);
        records := records[..i] + records[i + 1..];
      } else {
        Seqs.FilterKeepsAll(Spares(id, caller), records);
      }
    }

    /** `getSummary`, over the caller's records only. */
    method Summarize(caller: UserModel.UserId) returns (s: Summary)
      ensures s == SummaryOf(Owned(records, caller))
    {
      s := SummaryOf(Owned(records, caller));
    }
  }

  lemma {:induction false} SumAmountsAppend(a: seq<Transaction>, b: seq<Transaction>)
    ensures SumAmounts(a + b) == SumAmounts(a) + SumAmounts(b)
  {
    if b == [] {
      assert a + b == a;
    } else {
      assert (a + b)[..|a + b| - 1] == a + b[..|b| - 1];
      SumAmountsAppend(a, b[..|b| - 1]);
    }
  }

  /** The summary of two runs of records is the field-wise sum of their summaries. */
  lemma SummaryAppend(a: seq<Transaction>, b: seq<Transaction>)
    ensures SummaryOf(a + b).income == SummaryOf(a).income + SummaryOf(b).income
    ensures SummaryOf(a + b).expense == SummaryOf(a).expense + SummaryOf(b).expense
    ensures SummaryOf(a + b).totalTransactions == SummaryOf(a).totalTransactions + SummaryOf(b).totalTransactions
  {
    Seqs.FilterAppend(HasType("income"), a, b);
    Seqs.FilterAppend(HasType("expense"), a, b);
    SumAmountsAppend(Seqs.Filter(HasType("income"), a), Seqs.Filter(HasType("income"), b));
    SumAmountsAppend(Seqs.Filter(HasType("expense"), a), Seqs.Filter(HasType("expense"), b));
  }

  /** The caller's records after one more insert: the old ones, then the new one if it is theirs. */
  lemma OwnedAfterInsert(rs: seq<Transaction>, t: Transaction, caller: UserModel.UserId)
    ensures Owned(rs + [t], caller) == Owned(rs, caller) + (if t.userId == caller then [t] else [])
  {
    Seqs.FilterAppend(OwnedBy(caller), rs, [t]);
    assert [t][1..] == [];
  }

  /**
   * Storing one more record changes a user's summary only if the record is
   * theirs, and then by exactly that record's amount under its type.
   */
  lemma SummaryAfterInsert(rs: seq<Transaction>, t: Transaction, caller: UserModel.UserId)
    ensures t.userId != caller ==> SummaryOf(Owned(rs + [t], caller)) == SummaryOf(Owned(rs, caller))
    ensures t.userId == caller ==>
      var before := SummaryOf(Owned(rs, caller));
      var after := SummaryOf(Owned(rs + [t], caller));
      && after.income == before.income + (if t.txType == "income" then t.amount else 0)
      && after.expense == before.expense + (if t.txType == "expense" then t.amount else 0)
      && after.totalTransactions == before.totalTransactions + 1
  {
    OwnedAfterInsert(rs, t, caller);
    var mine := Owned(rs, caller);
    if t.userId != caller {
      assert mine + [] == mine;
    } else {
      SummaryAppend(mine, [t]);
      assert [t][1..] == [];
      assert Seqs.Filter(HasType("income"), [t]) == if t.txType == "income" then [t] else [];
      assert Seqs.Filter(HasType("expense"), [t]) == if t.txType == "expense" then [t] else [];
      assert SumAmounts([t]) == t.amount by {
        assert [t][..0] == [];
      }
    }
  }

  /** Over records that keep the sign convention, expense is never positive and income never negative. */
  lemma SummarySigns(ts: seq<Transaction>)
    requires forall i :: 0 <= i < |ts| ==> SignMatchesType(ts[i].amount, ts[i].txType)
    ensures SummaryOf(ts).expense <= 0 <= SummaryOf(ts).income
  {
    var exp := Seqs.Filter(HasType("expense"), ts);
    var inc := Seqs.Filter(HasType("income"), ts);
    Seqs.FilterSound(HasType("expense"), ts);
    Seqs.FilterSound(HasType("income"), ts);
    assert forall i :: 0 <= i < |exp| ==> exp[i] in ts;
    assert forall i :: 0 <= i < |inc| ==> inc[i] in ts;
  }

  /** The sign guards accept a type that is neither "income" nor "expense", whatever its amount's sign. */
  lemma OtherTypesPassSignGuards(amount: int, txType: string, category: string, date: int, now: int)
    requires amount != 0 && txType != "" && txType != "income" && txType != "expense"
    requires category in ValidCategories && date <= now
    ensures CheckAdd(AddRequest(Some(amount), Some(txType), Some(category), None, Some(date)), now).None?
  {
  }

  /** Update re-runs none of the add guards: it can store an expense with a positive amount. */
  lemma UpdateSkipsValidation(t: Transaction)
    ensures !SignMatchesType(ApplyPatch(t, Patch(None, Some(5), Some("expense"), None, None, None)).amount,
                             ApplyPatch(t, Patch(None, Some(5), Some("expense"), None, None, None)).txType)
  {
  }
}
