/**
 * Whole runs of the ledger and of the catalogue, driven through their
 * classes: the subscription-renewal test, the catalogue CRUD test, and the
 * interplay of the monthly cap, returns and late penalties.
 */
module Scenarios {
  import opened Wrappers
  import opened Users
  import Models

  /** The basique row of the policy table. */
  lemma BasiquePolicy()
    ensures Policy("basique") == TierPolicy(1, 14, 0.5)
  {
  }

  /** An expired subscription blocks borrowing; renewing it by 30 days from
      one day past expiry answers the new expiration and borrowing is
      allowed again (tests/test_exemplar_subscription.py, lines 25-34). */
  method RenewRestoresBorrowing(today: Date, hash: string -> string)
    returns (before: bool, renewed: Option<int>, after: bool)
    ensures !before
    ensures renewed == Some(today.ordinal + 29) && today.ordinal <= renewed.value
    ensures after
  {
    var u := User.Create("tester", "pwd123", "basique", false, today, hash);
    u.subscription.dateExpiration := today.ordinal - 1;
    before := u.CanBorrow(today);
    renewed := u.RenewSubscription(30);
    after := u.CanBorrow(today);
  }

  /** A new basique member borrows one book: the loan is open, due in
      fourteen days, and counted once for the month. */
  method NewMemberBorrows(today: Date, hash: string -> string)
    returns (u: User, first: Result<Loan, LedgerError>)
    ensures first.Success? && fresh(first.value)
    ensures fresh(u) && u.Valid() && u.CurrentTerms() == Some(SubscriptionTerms("basique", today.ordinal + 168))
    ensures u.loans == [first.value] && first.value.IsOpen()
    ensures first.value.dateRetourPrevue == today.ordinal + 14
    ensures u.monthlyEmprunts == 1 && u.lastReset == Some(today.FirstOfMonth()) && u.penalites == 0.0
    ensures ActiveCount(u.loans) == 1
  {
    BasiquePolicy();
    u := User.Create("reader", "secret", "basique", false, today, hash);
    first := u.Borrow("I1", None, today);
  }

  /** After that loan, a second check the same day refuses: the monthly cap
      of one is reached. */
  method BorrowThenCheckAgain(today: Date, hash: string -> string)
    returns (u: User, first: Result<Loan, LedgerError>, second: bool)
    ensures first.Success? && fresh(first.value) && !second
    ensures fresh(u) && u.Valid() && u.CurrentTerms() == Some(SubscriptionTerms("basique", today.ordinal + 168))
    ensures u.loans == [first.value] && first.value.IsOpen()
    ensures first.value.dateRetourPrevue == today.ordinal + 14
    ensures u.monthlyEmprunts == 1 && u.lastReset == Some(today.FirstOfMonth()) && u.penalites == 0.0
    ensures ActiveCount(u.loans) == 1
  {
    u, first := NewMemberBorrows(today, hash);
    BasiquePolicy();
    second := u.CanBorrow(today);
  }

  /** Returning that loan on time costs nothing and frees the loan slot, yet
      the monthly counter still refuses a new loan until the calendar month
      changes; in the next month borrowing is allowed again. */
  method ReturnThenCheckAgain(u: User, loan: Loan, today: Date, later: Date, nextMonth: Date)
    returns (fee: Result<real, LedgerError>, afterReturn: bool, nextMonthOk: bool)
    requires u.Valid() && u.CurrentTerms() == Some(SubscriptionTerms("basique", today.ordinal + 168))
    requires u.loans == [loan] && loan.IsOpen() && loan.dateRetourPrevue == today.ordinal + 14
    requires u.monthlyEmprunts == 1 && u.lastReset == Some(today.FirstOfMonth()) && u.penalites == 0.0
    requires ActiveCount(u.loans) == 1
    requires later.SameMonth(today) && later.ordinal <= today.ordinal + 14
    requires !nextMonth.SameMonth(today) && nextMonth.ordinal <= today.ordinal + 168
    modifies u`penalites, u`monthlyEmprunts, u`lastReset, loan
    ensures fee == Success(0.0) && !afterReturn
    ensures nextMonthOk
  {
    BasiquePolicy();
    fee := u.ReturnLoan(loan, later);
    afterReturn := u.CanBorrow(later);
    nextMonthOk := u.CanBorrow(nextMonth);
  }

  /** The two steps in a row: returning a book does not lift the monthly cap. */
  method ReturnDoesNotLiftMonthlyCap(today: Date, later: Date, nextMonth: Date, hash: string -> string)
    returns (first: Result<Loan, LedgerError>, second: bool, fee: Result<real, LedgerError>,
             afterReturn: bool, nextMonthOk: bool)
    requires later.SameMonth(today) && later.ordinal <= today.ordinal + 14
    requires !nextMonth.SameMonth(today) && nextMonth.ordinal <= today.ordinal + 168
    ensures first.Success? && !second
    ensures fee == Success(0.0) && !afterReturn
    ensures nextMonthOk
  {
    var u;
    u, first, second := BorrowThenCheckAgain(today, hash);
    fee, afterReturn, nextMonthOk := ReturnThenCheckAgain(u, first.value, today, later, nextMonth);
  }

  /** Returning that loan three days late costs three days at 0.5; the
      balance becomes positive and borrowing is refused from then on. */
  method ReturnLateThenCheck(u: User, loan: Loan, today: Date, returned: Date)
    returns (fee: Result<real, LedgerError>, owed: real, again: bool)
    requires u.Valid() && u.CurrentTerms() == Some(SubscriptionTerms("basique", today.ordinal + 168))
    requires u.loans == [loan] && loan.IsOpen() && loan.dateRetourPrevue == today.ordinal + 14
    requires u.penalites == 0.0
    requires returned.ordinal == today.ordinal + 17
    modifies u`penalites, u`monthlyEmprunts, u`lastReset, loan
    ensures fee == Success(1.5) && owed == 1.5
    ensures !again
  {
    BasiquePolicy();
    fee := u.ReturnLoan(loan, returned);
    owed := u.penalites;
    assert owed == 1.5;
    again := u.CanBorrow(returned);
  }

  /** A basique loan returned three days late blocks further borrowing. */
  method LateReturnBlocks(today: Date, returned: Date, hash: string -> string)
    returns (fee: Result<real, LedgerError>, owed: real, again: bool)
    requires returned.ordinal == today.ordinal + 17
    ensures fee == Success(1.5) && owed == 1.5
    ensures !again
  {
    var u, first, second := BorrowThenCheckAgain(today, hash);
    fee, owed, again := ReturnLateThenCheck(u, first.value, today, returned);
  }

  /** Add two books, remove the first by ISBN, save and reload into a new
      catalogue: the reloaded catalogue holds exactly the digital book
      (tests/test_models.py, lines 16-30). */
  method CatalogueCrud() returns (sizeAfterAdd: nat, removed: bool, sizeAfterRemove: nat,
                                  reloaded: seq<Models.Book>)
    ensures sizeAfterAdd == 2 && removed && sizeAfterRemove == 1
    ensures reloaded == [Models.LivreNumerique("T2", "A2", "I2", "1MB")]
  {
    var b := new Models.Bibliotheque("Test");
    b.AjouterLivre(Models.Livre("T1", "A1", "I1"));
    b.AjouterLivre(Models.LivreNumerique("T2", "A2", "I2", "1MB"));
    sizeAfterAdd := |b.livres|;
    removed := b.SupprimerLivre("I1");
    sizeAfterRemove := |b.livres|;
    var saved := Models.EncodeAll(b.livres);
    var b2 := new Models.Bibliotheque("Reloaded");
    var status := b2.Charger(Success(saved));
    Models.DecodeEncodeAll(b.livres);
    reloaded := b2.livres;
  }
}
