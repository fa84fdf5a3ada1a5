/**
 * The state handlers of the transactions page (`Transactions.jsx`): delete
 * with its confirmation id, and the edit dialog (`startEdit`,
 * `handleEditChange`, `saveEdit`, `cancelEdit`).
 */
module TransactionsPage {
  import opened Wrappers
  import opened ClientAmount
  import Seqs
  import TransactionForm

  /** A transaction as the page holds it from the server's JSON; `date` is the ISO text. */
  datatype Entry = Entry(id: string, amount: int, txType: string, category: string, note: Option<string>, date: string)

  /** The `editingForm` object: `{}` when no edit is open, so any key may be missing. */
  type EditForm = map<string, string>

  /** `s.slice(0, 10)`. */
  function Take10(s: string): (r: string)
    ensures |r| == (if |s| < 10 then |s| else 10)
    ensures r == s[..|r|]
  {
    if |s| < 10 then s else s[..10]
  }

  /**
   * The edit form `startEdit` opens: the five keys, the magnitude of the amount
   * as decimal text, the first ten characters of the date, and an empty note
   * when there is none.
   */
  function EditFormFor(t: Entry): (f: EditForm)
    ensures f.Keys == {"amount", "type", "category", "note", "date"}
    ensures f["amount"] == Show(Abs(t.amount))
    ensures f["type"] == t.txType && f["category"] == t.category
    ensures f["note"] == t.note.GetOr("")
    ensures f["date"] == Take10(t.date)
  {
    map["amount" := Show(Abs(t.amount)), "type" := t.txType, "category" := t.category,
        "note" := t.note.GetOr(""), "date" := Take10(t.date)]
  }

  /** The amount text of an opened edit reads back as the magnitude of the amount. */
  lemma EditFormAmountReadsBack(t: Entry)
    ensures ParseNumber(EditFormFor(t)["amount"]) == Some(Abs(t.amount))
  {
    ParseShow(Abs(t.amount));
  }

  /** `setEditingForm(s => ({ ...s, [name]: value }))`: only the named key changes. */
  function WithKey(f: EditForm, k: string, v: string): (r: EditForm)
    ensures k in r && r[k] == v
    ensures forall j :: j != k ==> (j in r <==> j in f)
    ensures forall j :: j != k && j in f ==> r[j] == f[j]
  {
    f[k := v]
  }

  /** `editingForm[k]`, `undefined` being `None`. */
  function Lookup(f: EditForm, k: string): Option<string> {
    if k in f then Some(f[k]) else None
  }

  /** The update request body; a `None` field is not sent. */
  datatype EditPayload = EditPayload(
    amount: int,
    txType: Option<string>,
    category: Option<string>,
    note: Option<string>,
    date: Option<string>)

  /**
   * The payload `saveEdit` builds, or `None` when `Number(editingForm.amount)`
   * is NaN (a missing amount is NaN). The amount takes the sign of the type;
   * an empty or missing date is not sent.
   */
  function EditPayloadOf(f: EditForm): (r: Option<EditPayload>)
    ensures r.None? <==> "amount" !in f || ParseNumber(f["amount"]).None?
    ensures r.Some? ==>
      && Abs(r.value.amount) == Abs(ParseNumber(f["amount"]).value)
      && (Lookup(f, "type") == Some("expense") ==> r.value.amount <= 0)
      && (Lookup(f, "type") != Some("expense") ==> r.value.amount >= 0)
      && r.value.txType == Lookup(f, "type")
      && r.value.category == Lookup(f, "category")
      && r.value.note == Lookup(f, "note")
      && r.value.date == (if "date" in f && f["date"] != "" then Some(f["date"]) else None)
  {
    if "amount" !in f then None
    else
      match ParseNumber(f["amount"])
      case None => None
      case Some(x) =>
        Some(EditPayload(SignedAmount(Lookup(f, "type").GetOr(""), x), Lookup(f, "type"),
                         Lookup(f, "category"), Lookup(f, "note"),
                         if "date" in f && f["date"] != "" then Some(f["date"]) else None))
  }

  /**
   * For a transaction whose sign follows its type, opening the edit dialog and
   * saving it unchanged sends back the same amount, type, category and note.
   */
  lemma EditRoundTrip(t: Entry)
    requires if t.txType == "expense" then t.amount <= 0 else t.amount >= 0
    ensures EditPayloadOf(EditFormFor(t)).Some?
    ensures EditPayloadOf(EditFormFor(t)).value.amount == t.amount
    ensures EditPayloadOf(EditFormFor(t)).value.txType == Some(t.txType)
    ensures EditPayloadOf(EditFormFor(t)).value.category == Some(t.category)
    ensures EditPayloadOf(EditFormFor(t)).value.note == Some(t.note.GetOr(""))
  {
    EditFormAmountReadsBack(t);
    SignedAmountOfAbs(t.txType, t.amount);
  }

  function KeepsOther(id: Option<string>): Entry -> bool {
    (t: Entry) => Some(t.id) != id
  }

  /** `prev.filter(t => t._id !== deleteId)`. */
  function RemoveById(ts: seq<Entry>, id: Option<string>): (r: seq<Entry>)
    ensures |r| <= |ts|
    ensures forall i :: 0 <= i < |r| ==> Some(r[i].id) != id
    ensures forall i :: 0 <= i < |ts| && Some(ts[i].id) != id ==> ts[i] in r
  {
    Seqs.FilterSound(KeepsOther(id), ts);
    Seqs.FilterComplete(KeepsOther(id), ts);
    Seqs.Filter(KeepsOther(id), ts)
  }

  /** Removing an id that no entry carries (or no id at all) leaves the list as it was. */
  lemma RemoveAbsentId(ts: seq<Entry>, id: Option<string>)
    requires forall i :: 0 <= i < |ts| ==> Some(ts[i].id) != id
    ensures RemoveById(ts, id) == ts
  {
    Seqs.FilterKeepsAll(KeepsOther(id), ts);
  }

  /** A single entry is kept exactly when its id is not the deleted one. */
  lemma RemoveByIdOne(t: Entry, id: Option<string>)
    ensures RemoveById([t], id) == if Some(t.id) != id then [t] else []
  {
    assert [t][1..] == [];
  }

  /**
   * Removing by id works run by run, so the entries kept stay in their order;
   * with `RemoveByIdOne` this determines the result for every list.
   */
  lemma RemoveByIdAppend(a: seq<Entry>, b: seq<Entry>, id: Option<string>)
    ensures RemoveById(a + b, id) == RemoveById(a, id) + RemoveById(b, id)
  {
    Seqs.FilterAppend(KeepsOther(id), a, b);
  }

  /** `prev.map(t => t._id === editingId ? updated : t)`. */
  function ReplaceById(ts: seq<Entry>, id: Option<string>, e: Entry): (r: seq<Entry>)
    ensures |r| == |ts|
    ensures forall i :: 0 <= i < |ts| && Some(ts[i].id) == id ==> r[i] == e
    ensures forall i :: 0 <= i < |ts| && Some(ts[i].id) != id ==> r[i] == ts[i]
  {
    seq(|ts|, i requires 0 <= i < |ts| => if Some(ts[i].id) == id then e else ts[i])
  }

  /** With distinct ids, replacing by the id at position `k` replaces that entry only. */
  lemma ReplaceByIdAt(ts: seq<Entry>, k: nat, e: Entry)
    requires k < |ts|
    requires forall i, j :: 0 <= i < j < |ts| ==> ts[i].id != ts[j].id
    ensures ReplaceById(ts, Some(ts[k].id), e) == ts[k := e]
  {
  }

  class Page {
    var transactions: seq<Entry>
    var editingId: Option<string>
    var editingForm: EditForm
    var deleteId: Option<string>
    /** The embedded add form; the page passes it `onSuccess`, which the form does not read, and no `onAdded`. */
    const addForm: TransactionForm.Component

    constructor (today: string)
      ensures transactions == [] && editingId == None && editingForm == map[] && deleteId == None
      ensures fresh(addForm) && !addForm.hasOnAdded
    {
      transactions := [];
      editingId := None;
      editingForm := map[];
      deleteId := None;
      addForm := new TransactionForm.Component(today, false);
    }

    /** `confirmDelete`: open the confirmation for `id`. */
    method ConfirmDelete(id: string)
      modifies this
      ensures deleteId == Some(id)
      ensures transactions == old(transactions) && editingId == old(editingId) && editingForm == old(editingForm)
    {
      deleteId := Some(id);
    }

    /**
     * `handleDelete`; `target` is the id the delete request is addressed to,
     * and `deleted` says whether that request succeeded. The
     * confirmation id is cleared either way; the list loses the entries with
     * that id only on success.
     */
    method HandleDelete(deleted: bool) returns (target: Option<string>)
      modifies this
      ensures target == old(deleteId)
      ensures deleteId == None
      ensures transactions == if deleted then RemoveById(old(transactions), old(deleteId)) else old(transactions)
      ensures editingId == old(editingId) && editingForm == old(editingForm)
    {
      target := deleteId;
      if deleted {
        transactions := RemoveById(transactions, deleteId);
      }
      deleteId := None;
    }

    /** `startEdit`. */
    method StartEdit(t: Entry)
      modifies this
      ensures editingId == Some(t.id) && editingForm == EditFormFor(t)
      ensures transactions == old(transactions) && deleteId == old(deleteId)
    {
      editingId := Some(t.id);
      editingForm := EditFormFor(t);
    }

    /** `cancelEdit`. */
    method CancelEdit()
      modifies this
      ensures editingId == None && editingForm == map[]
      ensures transactions == old(transactions) && deleteId == old(deleteId)
    {
      editingId := None;
      editingForm := map[];
    }

    /** `handleEditChange` for the input named `k`. */
    method HandleEditChange(k: string, v: string)
      modifies this
      ensures editingForm == WithKey(old(editingForm), k, v)
      ensures transactions == old(transactions) && editingId == old(editingId) && deleteId == old(deleteId)
    {
      editingForm := WithKey(editingForm, k, v);
    }

    /**
     * `saveEdit`. `sent` is the update it requests, if any, and `target` the id
     * the request is addressed to; `reply` is the transaction the server
     * returned, `None` when the request failed. Only a sent and answered update
     * changes the page: the entry with the edited id is replaced in place and
     * the dialog closes.
     */
    method SaveEdit(reply: Option<Entry>) returns (sent: Option<EditPayload>, target: Option<string>)
      modifies this
      ensures sent == EditPayloadOf(old(editingForm))
      ensures target == old(editingId)
      ensures sent.Some? && reply.Some? ==>
        && transactions == ReplaceById(old(transactions), old(editingId), reply.value)
        && editingId == None && editingForm == map[]
      ensures !(sent.Some? && reply.Some?) ==>
        transactions == old(transactions) && editingId == old(editingId) && editingForm == old(editingForm)
      ensures deleteId == old(deleteId)
    {
      sent := EditPayloadOf(editingForm);
      target := editingId;
      if sent.None? || reply.None? {
        return;
      }
      transactions := ReplaceById(transactions, editingId, reply.value);
      editingId := None;
      editingForm := map[];
    }
  }
}
