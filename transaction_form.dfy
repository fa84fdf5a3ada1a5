/**
 * The add-transaction form component (`TransactionForm.jsx`): its `form`
 * state, `handleChange`, and `handleSubmit` with its client-side checks, the
 * sign rule, the request payload and the reset after a successful add.
 */
module TransactionForm {
  import opened Wrappers
  import opened Text
  import opened ClientAmount

  /** The `form` state: every input is text. */
  datatype Fields = Fields(amount: string, txType: string, category: string, note: string, date: string)

  /** The `name` attributes of the form's five inputs. */
  datatype Field = Amount | Type | Category | Note | Date

  function Get(f: Fields, k: Field): string {
    match k
    case Amount => f.amount
    case Type => f.txType
    case Category => f.category
    case Note => f.note
    case Date => f.date
  }

  /** `setForm(s => ({ ...s, [name]: value }))`: the named field takes the value, the others keep theirs. */
  function WithField(f: Fields, k: Field, v: string): (r: Fields)
    ensures Get(r, k) == v
    ensures forall j :: j != k ==> Get(r, j) == Get(f, j)
  {
    match k
    case Amount => f.(amount := v)
    case Type => f.(txType := v)
    case Category => f.(category := v)
    case Note => f.(note := v)
    case Date => f.(date := v)
  }

  /** The options of the category select. */
  const Categories: seq<string> := ["Food", "Travel", "Salary", "Shopping", "Other"]

  /** The form as first shown and as reset: `today` is `new Date().toISOString().slice(0, 10)`. */
  function Blank(today: string): Fields {
    Fields("", "expense", "", "", today)
  }

  /** The request body; `date` is `None` when the form's date is empty (the key is then not sent). */
  datatype Payload = Payload(amount: int, txType: string, category: string, note: string, date: Option<string>)

  /** Why `handleSubmit` sent nothing. */
  datatype SubmitError = MissingRequired | NotANumber

  /**
   * The checks and the payload of `handleSubmit`: amount, type and category must
   * be non-empty (the date is not checked), the amount must be a number; the
   * amount then takes the sign of the type, the type is lower-cased, and an
   * empty date is left out.
   */
  function PreparePayload(f: Fields): (r: Result<Payload, SubmitError>)
    ensures r == Err(MissingRequired) <==> f.amount == "" || f.txType == "" || f.category == ""
    ensures r == Err(NotANumber) <==>
      f.amount != "" && f.txType != "" && f.category != "" && ParseNumber(f.amount).None?
    ensures r.Ok? ==>
      && ParseNumber(f.amount).Some?
      && Abs(r.value.amount) == Abs(ParseNumber(f.amount).value)
      && (f.txType == "expense" ==> r.value.amount <= 0)
      && (f.txType != "expense" ==> r.value.amount >= 0)
      && r.value.txType == Lower(f.txType)
      && r.value.category == f.category
      && r.value.note == f.note
      && r.value.date == (if f.date == "" then None else Some(f.date))
  {
    if f.amount == "" || f.txType == "" || f.category == "" then Err(MissingRequired)
    else
      match ParseNumber(f.amount)
      case None => Err(NotANumber)
      case Some(x) =>
        Ok(Payload(SignedAmount(f.txType, x), Lower(f.txType), f.category, f.note,
                   if f.date == "" then None else Some(f.date)))
  }

  class Component {
    var form: Fields
    /** Whether the parent passed an `onAdded` callback. */
    const hasOnAdded: bool

    constructor (today: string, hasOnAdded: bool)
      ensures form == Blank(today) && this.hasOnAdded == hasOnAdded
    {
      form := Blank(today);
      this.hasOnAdded := hasOnAdded;
    }

    /** `handleChange` for the input named `k`. */
    method HandleChange(k: Field, v: string)
      modifies this
      ensures form == WithField(old(form), k, v)
    {
      form := WithField(form, k, v);
    }

    /**
     * `handleSubmit`. `sent` is the request it posts, if any; `accepted` says
     * whether the server answered with success (a failed fetch counts as not
     * accepted); `today` is the date the reset form shows; `notified` says
     * whether `onAdded` was called.
     */
    method HandleSubmit(today: string, accepted: bool) returns (sent: Option<Payload>, notified: bool)
      modifies this
      ensures sent == PreparePayload(old(form)).ToOption()
      ensures notified <==> sent.Some? && accepted && hasOnAdded
      ensures form == if sent.Some? && accepted then Blank(today) else old(form)
    {
      var prepared := PreparePayload(form);
      notified := false;
      if prepared.Err? {
        return None, false;
      }
      sent := Some(prepared.value);
      if accepted {
        form := Blank(today);
        notified := hasOnAdded;
      }
    }
  }
}
