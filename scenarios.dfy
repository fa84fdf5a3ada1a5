/**
 * End-to-end runs through the server model, and the agreement between the
 * client's category options and the server's accepted categories.
 */
module Scenarios {
  import opened Wrappers
  import Text
  import Ledger
  import UserModel
  import Auth
  import TransactionForm

  /** The category select offers exactly the categories `addTransaction` accepts. */
  lemma CategoriesAgree()
    ensures forall c :: c in TransactionForm.Categories <==> c in Ledger.ValidCategories
  {
  }

  /**
   * Sign up Alice and log in with the same credentials: the corrected login
   * answers 200 with her token, the login as written answers 500.
   */
  method SignupThenLogin(salt: string, hash: (string, string) -> string, compare: (string, string) -> bool)
    returns (signup: Auth.SignupResponse, login: Auth.LoginResponse, asWritten: Auth.LoginResponse)
    requires hash("secret", salt) != ""
    requires compare("secret", hash("secret", salt))
    ensures signup.Registered? && Auth.SignupStatus(signup) == 201
    ensures login == Auth.LoggedIn(signup.token, signup.user) && Auth.LoginStatus(login) == 200
    ensures signup.user == Auth.PublicUser(signup.token.subject, "Alice", "a@x.com")
    ensures Auth.LoginStatus(asWritten) == 500
  {
    var hashed := hash("secret", salt);
    assert Text.IsTrimmed("Alice") && Text.IsLower("a@x.com");
    assert !UserModel.EmailTaken([], "a@x.com");
    var users := new Auth.CredentialStore();
    signup := users.Signup("Alice", "a@x.com", "secret", salt, hash);
    Auth.SignupThenLogin([], 0, "Alice", "a@x.com", "a@x.com", "secret", hashed, compare);
    Auth.SignupThenLoginAsWritten([], 0, "Alice", "a@x.com", "secret", hashed);
    login := Auth.Login(users.users, "a@x.com", "secret", compare);
    asWritten := Auth.LoginAsWritten(users.users, "a@x.com", "secret");
  }

  /** One expense of -500 gives the summary income 0, expense -500, balance -500, one transaction. */
  method SingleExpense(caller: UserModel.UserId, now: int) returns (summary: Ledger.Summary)
    requires now >= 20240101
    ensures summary == Ledger.Summary(0, -500, -500, 1)
  {
    var ledger := new Ledger.LedgerStore();
    var added := ledger.Add(caller, Ledger.AddRequest(Some(-500), Some("expense"), Some("Food"), None, Some(20240101)), now);
    assert ledger.records == [] + [added.transaction];
    Ledger.SummaryAfterInsert([], added.transaction, caller);
    summary := ledger.Summarize(caller);
  }

  /** The caller's summary over an income of 1000 followed by an expense of -300. */
  lemma SummaryOfIncomeThenExpense(t1: Ledger.Transaction, t2: Ledger.Transaction, caller: UserModel.UserId)
    requires t1.userId == caller && t1.txType == "income" && t1.amount == 1000
    requires t2.userId == caller && t2.txType == "expense" && t2.amount == -300
    ensures Ledger.SummaryOf(Ledger.Owned([t1] + [t2], caller)) == Ledger.Summary(1000, -300, 700, 2)
  {
    var none: seq<Ledger.Transaction> := [];
    assert Ledger.Owned(none, caller) == none;
    var s0 := Ledger.SummaryOf(none);
    assert s0.income == 0 && s0.expense == 0 && s0.totalTransactions == 0;
    assert [t1] == none + [t1];
    Ledger.SummaryAfterInsert(none, t1, caller);
    var s1 := Ledger.SummaryOf(Ledger.Owned([t1], caller));
    assert s1.income == 1000 && s1.expense == 0 && s1.totalTransactions == 1;
    Ledger.SummaryAfterInsert([t1], t2, caller);
    var s2 := Ledger.SummaryOf(Ledger.Owned([t1] + [t2], caller));
    assert s2.income == 1000 && s2.expense == -300 && s2.totalTransactions == 2;
  }

  /** An income of 1000 and an expense of -300 give a balance of 700 over two transactions. */
  method IncomeThenExpense(caller: UserModel.UserId, now: int) returns (summary: Ledger.Summary)
    requires now >= 20240101
    ensures summary == Ledger.Summary(1000, -300, 700, 2)
  {
    var ledger := new Ledger.LedgerStore();
    var first := ledger.Add(caller, Ledger.AddRequest(Some(1000), Some("income"), Some("Salary"), None, Some(20240101)), now);
    var second := ledger.Add(caller, Ledger.AddRequest(Some(-300), Some("expense"), Some("Food"), None, Some(20240101)), now);
    assert ledger.records == [first.transaction] + [second.transaction];
    SummaryOfIncomeThenExpense(first.transaction, second.transaction, caller);
    summary := ledger.Summarize(caller);
  }

  /** Another user cannot read a transaction, and after its owner deletes it, nobody finds it. */
  method DeleteThenGet(owner: UserModel.UserId, other: UserModel.UserId, now: int)
    returns (byOther: Option<Ledger.Transaction>, deleted: bool, afterDelete: Option<Ledger.Transaction>)
    requires owner != other && now >= 20240101
    ensures byOther == None && deleted && afterDelete == None
  {
    var ledger := new Ledger.LedgerStore();
    var added := ledger.Add(owner, Ledger.AddRequest(Some(-500), Some("expense"), Some("Food"), None, Some(20240101)), now);
    var id := added.transaction.id;
    byOther := ledger.GetById(other, id);
    deleted := ledger.Delete(owner, id);
    afterDelete := ledger.GetById(owner, id);
  }
}
