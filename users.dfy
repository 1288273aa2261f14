/**
 * The per-user lending ledger: the static subscription policy table, the
 * subscription and loan records, and the User state machine (the
 * eligibility check with its monthly reset, borrowing, returning with a
 * late penalty, renewing the subscription, reserving).
 *
 * `date.today()` is replaced by an explicit `today` argument. Stored dates
 * (loan dates, due dates, subscription dates) are proleptic Gregorian day
 * numbers, as `date.toordinal()` gives them: the source only compares them,
 * subtracts them and shifts them by whole days.
 */
module Users {
  import opened Wrappers

  /** A calendar day: its day number together with its year, month and day
      of the month, as supplied by the caller in place of `date.today()`. */
  datatype Date = Date(ordinal: int, year: int, month: int, day: int)
  {
    /** `replace(day=1)`: the first day of the same month. */
    function FirstOfMonth(): Date
    {
      Date(ordinal - (day - 1), year, month, 1)
    }

    /** The two days share the `(year, month)` key of the monthly reset. */
    predicate SameMonth(other: Date)
    {
      year == other.year && month == other.month
    }
  }

  // ---------------------------------------------------------------------------
  // Subscription policy
  // ---------------------------------------------------------------------------

  /** One row of the policy table: maximum number of loans, loan duration in
      days, penalty per day late. Rates are exact reals, not binary floats. */
  datatype TierPolicy = TierPolicy(maxEmprunts: nat, dureeJours: nat, penaliteParJour: real)

  /** The static table of subscription tiers. Keys are case-sensitive. */
  const Subscriptions: map<string, TierPolicy> :=
    map[
      "basique" := TierPolicy(1, 14, 0.5),
      "premium" := TierPolicy(3, 21, 0.5),
      "VIP" := TierPolicy(10, 28, 0.3)
    ]

  /** `SUBSCRIPTIONS.get(tier, SUBSCRIPTIONS["basique"])`: every lookup of a
      tier falls back to the basique row when the name is not in the table. */
  function Policy(tier: string): (p: TierPolicy)
    ensures tier !in Subscriptions ==> p == TierPolicy(1, 14, 0.5)
    ensures 1 <= p.maxEmprunts && 1 <= p.dureeJours && 0.0 < p.penaliteParJour
  {
    if tier in Subscriptions then Subscriptions[tier] else Subscriptions["basique"]
  }

  // ---------------------------------------------------------------------------
  // Records owned by a user
  // ---------------------------------------------------------------------------

  /** A subscription: its tier name (kept verbatim, even when unknown to the
      table), its start day and its expiration day. */
  class Subscription {
    const tier: string
    const dateDebut: int
    var dateExpiration: int

    constructor (tier: string, dateDebut: int, dateExpiration: int)
      ensures this.tier == tier && this.dateDebut == dateDebut
      ensures this.dateExpiration == dateExpiration
    {
      this.tier := tier;
      this.dateDebut := dateDebut;
      this.dateExpiration := dateExpiration;
    }

    /** Pushes the expiration back by `extraDays` days (a negative number
        brings it forward). */
    method Renew(extraDays: int)
      modifies this
      ensures dateExpiration == old(dateExpiration) + extraDays
    {
      dateExpiration := dateExpiration + extraDays;
    }
  }

  /** A loan: what was borrowed, when, when it is due, and, once returned,
      the day of return and the penalty charged for it. */
  class Loan {
    const isbn: string
    const exemplaireId: Option<string>
    const dateEmprunt: int
    const dateRetourPrevue: int
    var dateRetourEffective: Option<int>
    var penaliteAcquise: real

    constructor (isbn: string, exemplaireId: Option<string>, dateEmprunt: int, dateRetourPrevue: int)
      ensures this.isbn == isbn && this.exemplaireId == exemplaireId
      ensures this.dateEmprunt == dateEmprunt && this.dateRetourPrevue == dateRetourPrevue
      ensures dateRetourEffective == None && penaliteAcquise == 0.0
    {
      this.isbn := isbn;
      this.exemplaireId := exemplaireId;
      this.dateEmprunt := dateEmprunt;
      this.dateRetourPrevue := dateRetourPrevue;
      dateRetourEffective := None;
      penaliteAcquise := 0.0;
    }

    /** The loan has not been returned yet. */
    predicate IsOpen()
      reads this`dateRetourEffective
    {
      dateRetourEffective.None?
    }
  }

  /** A hold a user has placed; never changed once made. */
  datatype Reservation = Reservation(isbn: string, exemplaireId: Option<string>, dateReservation: int)

  /** The exceptions the ledger raises. */
  datatype LedgerError =
    | NotAllowed      // borrowing refused: penalties, no or expired subscription, limits
    | NoSubscription  // a late return by a user without subscription reads the tier of None

  /** The open (not yet returned) status of each loan, in order. */
  function OpenFlags(ls: seq<Loan>): (flags: seq<bool>)
    reads ls`dateRetourEffective
    ensures |flags| == |ls|
  {
    if ls == [] then [] else OpenFlags(ls[..|ls| - 1]) + [ls[|ls| - 1].IsOpen()]
  }

  /** Each flag is the open status of the loan at the same position. */
  lemma {:induction false} OpenFlagsAt(ls: seq<Loan>, i: nat)
    requires i < |ls|
    ensures OpenFlags(ls)[i] == ls[i].IsOpen()
  {
    if i < |ls| - 1 {
      OpenFlagsAt(ls[..|ls| - 1], i);
    }
  }

  /** The number of `true` entries. */
  function CountTrue(s: seq<bool>): (n: nat)
    ensures n <= |s|
  {
    if s == [] then 0
    else CountTrue(s[..|s| - 1]) + (if s[|s| - 1] then 1 else 0)
  }

  /** Turning one `true` entry to `false` lowers the count by exactly one. */
  lemma {:induction false} CountTrueClear(s: seq<bool>, k: nat)
    requires k < |s| && s[k]
    ensures CountTrue(s[k := false]) + 1 == CountTrue(s)
  {
    var t := s[k := false];
    if k == |s| - 1 {
      assert t[..|t| - 1] == s[..|s| - 1];
    } else {
      assert t[..|t| - 1] == s[..|s| - 1][k := false];
      CountTrueClear(s[..|s| - 1], k);
    }
  }

  /** The number of loans not yet returned (the generator sum over `loans`). */
  function ActiveCount(ls: seq<Loan>): (n: nat)
    reads ls`dateRetourEffective
    ensures n <= |ls|
  {
    CountTrue(OpenFlags(ls))
  }

  /** Any sequence that agrees with the loans' open status position by
      position counts the open loans. */
  lemma ActiveCountByFlags(ls: seq<Loan>, flags: seq<bool>)
    requires |flags| == |ls| && forall i :: 0 <= i < |ls| ==> flags[i] == ls[i].IsOpen()
    ensures ActiveCount(ls) == CountTrue(flags)
  {
    forall i | 0 <= i < |ls| ensures OpenFlags(ls)[i] == flags[i] {
      OpenFlagsAt(ls, i);
    }
    assert OpenFlags(ls) == flags;
  }

  /** A list whose last loan is open and whose other loans have the open
      status `before` counts one more open loan than `before` does. */
  lemma ActiveCountAfterAppend(ls: seq<Loan>, before: seq<bool>)
    requires |before| + 1 == |ls| && ls[|ls| - 1].IsOpen()
    requires forall i :: 0 <= i < |before| ==> before[i] == ls[i].IsOpen()
    ensures ActiveCount(ls) == CountTrue(before) + 1
  {
    ActiveCountByFlags(ls, before + [true]);
    assert (before + [true])[..|before|] == before;
  }

  /** Closing one listed, previously open loan of a list without duplicates
      lowers the count of open loans by one: `before` is the open status
      before the close, which every other loan still has. */
  lemma ActiveCountAfterClose(ls: seq<Loan>, before: seq<bool>, l: Loan)
    requires NoDuplicates(ls) && l in ls && !l.IsOpen() && |before| == |ls|
    requires forall i :: 0 <= i < |ls| && ls[i] == l ==> before[i]
    requires forall i :: 0 <= i < |ls| && ls[i] != l ==> before[i] == ls[i].IsOpen()
    ensures ActiveCount(ls) + 1 == CountTrue(before)
  {
    var k :| 0 <= k < |ls| && ls[k] == l;
    var after := before[k := false];
    forall i | 0 <= i < |ls| ensures after[i] == ls[i].IsOpen() {
      if i != k {
        assert ls[i] != l;
      }
    }
    ActiveCountByFlags(ls, after);
    CountTrueClear(before, k);
  }

  /** No loan is listed twice. */
  predicate NoDuplicates(ls: seq<Loan>)
  {
    forall i, j :: 0 <= i < j < |ls| ==> ls[i] != ls[j]
  }

  /** The penalty for a return `returned - due` whole days late at `rate` per day. */
  function LateFee(due: int, returned: int, rate: real): (fee: real)
    requires due < returned
    ensures 0.0 < rate ==> rate <= fee
  {
    (returned - due) as real * rate
  }

  /** Returning later never costs less. */
  lemma LateFeeGrows(due: int, returned: int, later: int, rate: real)
    requires due < returned <= later && 0.0 <= rate
    ensures LateFee(due, returned, rate) <= LateFee(due, later, rate)
  {
    var extra := (later - returned) as real;
    assert LateFee(due, later, rate) == LateFee(due, returned, rate) + extra * rate;
    assert 0.0 <= extra * rate;
  }

  // ---------------------------------------------------------------------------
  // The eligibility check
  // ---------------------------------------------------------------------------

  /** What the eligibility check reads of a subscription. */
  datatype SubscriptionTerms = SubscriptionTerms(tier: string, expiration: int)

  /** The answer of the eligibility check and the monthly counter and
      last-reset day it leaves behind. */
  datatype Check = Check(allowed: bool, monthly: int, lastReset: Option<Date>)

  /** The monthly counter is due for a reset: it was never reset, or last
      reset in another calendar month. */
  predicate ResetDue(lastReset: Option<Date>, today: Date)
  {
    lastReset.None? || !lastReset.value.SameMonth(today)
  }

  /** Borrowing is not blocked by penalties or by the subscription. */
  predicate PassesGates(penalites: real, terms: Option<SubscriptionTerms>, today: Date)
  {
    penalites <= 0.0 && terms.Some? && today.ordinal <= terms.value.expiration
  }

  /** The eligibility check, in the order the source makes it: penalties
      owed, then the subscription, then the monthly reset, then the two
      limits. */
  function CanBorrowCheck(penalites: real, terms: Option<SubscriptionTerms>, active: nat,
                          monthly: int, lastReset: Option<Date>, today: Date): (c: Check)
    ensures c.allowed <==>
      && PassesGates(penalites, terms, today)
      && active < Policy(terms.value.tier).maxEmprunts
      && c.monthly < Policy(terms.value.tier).maxEmprunts
    ensures PassesGates(penalites, terms, today) && ResetDue(lastReset, today) ==>
      c.monthly == 0 && c.lastReset == Some(today.FirstOfMonth())
    ensures !(PassesGates(penalites, terms, today) && ResetDue(lastReset, today)) ==>
      c.monthly == monthly && c.lastReset == lastReset
    ensures PassesGates(penalites, terms, today) ==> !ResetDue(c.lastReset, today)
  {
    if penalites > 0.0 then Check(false, monthly, lastReset)
    else if terms.None? then Check(false, monthly, lastReset)
    else if terms.value.expiration < today.ordinal then Check(false, monthly, lastReset)
    else
      var m := if ResetDue(lastReset, today) then 0 else monthly;
      var r := if ResetDue(lastReset, today) then Some(today.FirstOfMonth()) else lastReset;
      var maxEmprunts := Policy(terms.value.tier).maxEmprunts;
      if active >= maxEmprunts then Check(false, m, r)
      else Check(m < maxEmprunts, m, r)
  }

  /** The monthly reset fires at most once per calendar month: once a check
      has gone past the penalty and subscription gates, a later check in the
      same month, on the counters it left, resets nothing and gives the same
      answer while the subscription still runs. */
  lemma CheckSettlesForTheMonth(penalites: real, terms: Option<SubscriptionTerms>, active: nat,
                                monthly: int, lastReset: Option<Date>, today: Date, later: Date)
    requires PassesGates(penalites, terms, today) && later.SameMonth(today)
    ensures var c := CanBorrowCheck(penalites, terms, active, monthly, lastReset, today);
            var c2 := CanBorrowCheck(penalites, terms, active, c.monthly, c.lastReset, later);
            && c2.monthly == c.monthly && c2.lastReset == c.lastReset
            && (later.ordinal <= terms.value.expiration ==> c2.allowed == c.allowed)
  {
    var c := CanBorrowCheck(penalites, terms, active, monthly, lastReset, today);
    assert !ResetDue(c.lastReset, today);
    assert !ResetDue(c.lastReset, later);
  }

  /** The monthly cap is independent of returns: once as many loans as the
      tier allows have been counted this month, the check refuses, whatever
      the number of open loans. */
  lemma MonthlyCapBlocks(penalites: real, terms: Option<SubscriptionTerms>, active: nat,
                         monthly: int, lastReset: Option<Date>, today: Date)
    requires terms.Some? && Policy(terms.value.tier).maxEmprunts <= monthly
    requires lastReset.Some? && lastReset.value.SameMonth(today)
    ensures !CanBorrowCheck(penalites, terms, active, monthly, lastReset, today).allowed
  {
  }

  // ---------------------------------------------------------------------------
  // The user
  // ---------------------------------------------------------------------------

  /** A library member and the ledger of their loans. */
  class User {
    const username: string
    var pwdHash: string
    var isAdmin: bool
    const subscription: Subscription?
    var loans: seq<Loan>
    var reservations: seq<Reservation>
    var penalites: real
    var notifications: seq<string>
    var monthlyEmprunts: int
    var lastReset: Option<Date>

    /** What the ledger's own operations keep true from `Create` on: no
        negative balance or counter, a reset day that is a first of month,
        and no loan listed twice. */
    ghost predicate Valid()
      reads this
    {
      && 0.0 <= penalites
      && 0 <= monthlyEmprunts
      && (lastReset.Some? ==> lastReset.value.day == 1)
      && NoDuplicates(loans)
    }

    /** The tier and expiration of the subscription, if there is one. */
    function CurrentTerms(): Option<SubscriptionTerms>
      reads subscription
    {
      if subscription == null then None
      else Some(SubscriptionTerms(subscription.tier, subscription.dateExpiration))
    }

    /** The record constructor: no loans, no reservations, nothing owed,
        counter never reset. */
    constructor (username: string, pwdHash: string, isAdmin: bool, subscription: Subscription?)
      ensures this.username == username && this.pwdHash == pwdHash
      ensures this.isAdmin == isAdmin && this.subscription == subscription
      ensures loans == [] && reservations == [] && notifications == []
      ensures penalites == 0.0 && monthlyEmprunts == 0 && lastReset == None
      ensures Valid()
    {
      this.username := username;
      this.pwdHash := pwdHash;
      this.isAdmin := isAdmin;
      this.subscription := subscription;
      loans := [];
      reservations := [];
      penalites := 0.0;
      notifications := [];
      monthlyEmprunts := 0;
      lastReset := None;
    }

    /** A new user whose subscription starts today and runs for twelve loan
        durations of the tier; `hash` is the password digest function. */
    static method Create(username: string, password: string, tier: string, isAdmin: bool,
                         today: Date, hash: string -> string) returns (u: User)
      ensures fresh(u) && u.subscription != null && fresh(u.subscription)
      ensures u.username == username && u.isAdmin == isAdmin
      ensures u.subscription.tier == tier && u.subscription.dateDebut == today.ordinal
      ensures u.subscription.dateExpiration == today.ordinal + 12 * Policy(tier).dureeJours
      ensures u.CheckPassword(password, hash)
      ensures u.loans == [] && u.reservations == [] && u.notifications == []
      ensures u.penalites == 0.0 && u.monthlyEmprunts == 0 && u.lastReset == None
      ensures u.Valid()
    {
      var duration := Policy(tier).dureeJours;
      var sub := new Subscription(tier, today.ordinal, today.ordinal + duration * 12);
      u := new User(username, hash(password), isAdmin, sub);
    }

    /** The stored digest is the digest of `password`. */
    function CheckPassword(password: string, hash: string -> string): (ok: bool)
      reads this
      ensures ok <==> pwdHash == hash(password)
    {
      pwdHash == hash(password)
    }

    /** May the user borrow today? A query that, once past the penalty and
        subscription gates, resets the monthly counter on the first check of
        a calendar month. */
    method CanBorrow(today: Date) returns (ok: bool)
      modifies this`monthlyEmprunts, this`lastReset
      ensures Check(ok, monthlyEmprunts, lastReset)
           == CanBorrowCheck(old(penalites), old(CurrentTerms()), old(ActiveCount(loans)),
                             old(monthlyEmprunts), old(lastReset), today)
      ensures old(Valid()) ==> Valid()
    {
      if penalites > 0.0 {
        return false;
      }
      if subscription == null {
        return false;
      }
      if subscription.dateExpiration < today.ordinal {
        return false;
      }
      if lastReset.None? || (lastReset.value.year, lastReset.value.month) != (today.year, today.month) {
        monthlyEmprunts := 0;
        lastReset := Some(today.FirstOfMonth());
      }
      var maxEmprunts := Policy(subscription.tier).maxEmprunts;
      var active := ActiveCount(loans);
      if active >= maxEmprunts {
        return false;
      }
      return monthlyEmprunts < maxEmprunts;
    }

    /** Borrows a copy: refused (with the counter reset of the check kept)
        when the check fails; otherwise one new open loan due after the
        tier's duration is appended and the monthly counter goes up by one. */
    method Borrow(isbn: string, exemplaireId: Option<string>, today: Date)
      returns (r: Result<Loan, LedgerError>)
      modifies this`monthlyEmprunts, this`lastReset, this`loans
      ensures var c := CanBorrowCheck(old(penalites), old(CurrentTerms()), old(ActiveCount(loans)),
                                      old(monthlyEmprunts), old(lastReset), today);
              && lastReset == c.lastReset
              && (!c.allowed ==> r == Failure(NotAllowed) && loans == old(loans) && monthlyEmprunts == c.monthly)
              && (c.allowed ==> r.Success? && loans == old(loans) + [r.value] && monthlyEmprunts == c.monthly + 1)
      ensures r.Success? ==>
              && fresh(r.value) && subscription != null
              && r.value.isbn == isbn && r.value.exemplaireId == exemplaireId
              && r.value.dateEmprunt == today.ordinal
              && r.value.dateRetourPrevue == today.ordinal + Policy(subscription.tier).dureeJours
              && r.value.IsOpen() && r.value.penaliteAcquise == 0.0
              && ActiveCount(loans) == old(ActiveCount(loans)) + 1
              && ActiveCount(loans) <= Policy(subscription.tier).maxEmprunts
              && monthlyEmprunts <= Policy(subscription.tier).maxEmprunts
      ensures old(Valid()) ==> Valid()
    {
      ghost var before := OpenFlags(loans);
      forall i | 0 <= i < |loans| ensures before[i] == loans[i].IsOpen() {
        OpenFlagsAt(loans, i);
      }
      var ok := CanBorrow(today);
      if !ok {
        return Failure(NotAllowed);
      }
      var duree := Policy(subscription.tier).dureeJours;
      var loan := new Loan(isbn, exemplaireId, today.ordinal, today.ordinal + duree);
      loans := loans + [loan];
      monthlyEmprunts := monthlyEmprunts + 1;
      ActiveCountAfterAppend(loans, before);
      return Success(loan);
    }

    /** Returns a loan. A loan already returned is left alone and costs
        nothing, so a loan is charged at most once. Otherwise the return day
        is recorded; a late return is charged the days late times the tier's
        rate, on the loan and on the balance. */
    method ReturnLoan(loan: Loan, today: Date) returns (r: Result<real, LedgerError>)
      modifies this`penalites, loan
      ensures !old(loan.IsOpen()) ==>
              r == Success(0.0) && unchanged(loan) && penalites == old(penalites)
      ensures old(loan.IsOpen()) ==> loan.dateRetourEffective == Some(today.ordinal)
      ensures old(loan.IsOpen()) && today.ordinal <= loan.dateRetourPrevue ==>
              r == Success(0.0) && loan.penaliteAcquise == old(loan.penaliteAcquise)
              && penalites == old(penalites)
      ensures old(loan.IsOpen()) && loan.dateRetourPrevue < today.ordinal && subscription == null ==>
              r == Failure(NoSubscription) && loan.penaliteAcquise == old(loan.penaliteAcquise)
              && penalites == old(penalites)
      ensures old(loan.IsOpen()) && loan.dateRetourPrevue < today.ordinal && subscription != null ==>
              var fee := LateFee(loan.dateRetourPrevue, today.ordinal, Policy(subscription.tier).penaliteParJour);
              && 0.0 < fee && r == Success(fee)
              && loan.penaliteAcquise == fee && penalites == old(penalites) + fee
      ensures old(Valid()) && old(loan.IsOpen()) && loan in loans ==>
              ActiveCount(loans) + 1 == old(ActiveCount(loans))
      ensures old(Valid()) ==> Valid()
    {
      if loan.dateRetourEffective.Some? {
        return Success(0.0);
      }
      ghost var before := OpenFlags(loans);
      forall i | 0 <= i < |loans| ensures before[i] == loans[i].IsOpen() {
        OpenFlagsAt(loans, i);
      }
      loan.dateRetourEffective := Some(today.ordinal);
      if today.ordinal > loan.dateRetourPrevue {
        if subscription == null {
          r := Failure(NoSubscription);
        } else {
          var montant := LateFee(loan.dateRetourPrevue, today.ordinal, Policy(subscription.tier).penaliteParJour);
          loan.penaliteAcquise := montant;
          penalites := penalites + montant;
          r := Success(montant);
        }
      } else {
        r := Success(0.0);
      }
      if old(Valid()) && loan in loans {
        ActiveCountAfterClose(loans, before, loan);
      }
    }

    /** Extends the subscription by `extraDays` and answers the new
        expiration day; without a subscription, does nothing and answers None. */
    method RenewSubscription(extraDays: int) returns (r: Option<int>)
      modifies subscription
      ensures subscription == null ==> r == None
      ensures subscription != null ==>
              && subscription.dateExpiration == old(subscription.dateExpiration) + extraDays
              && r == Some(subscription.dateExpiration)
    {
      if subscription == null {
        return None;
      }
      subscription.Renew(extraDays);
      return Some(subscription.dateExpiration);
    }

    /** Appends one reservation dated today; reserving the same book twice
        is not checked. */
    method Reserve(isbn: string, exemplaireId: Option<string>, today: Date) returns (r: Reservation)
      modifies this`reservations
      ensures r == Reservation(isbn, exemplaireId, today.ordinal)
      ensures reservations == old(reservations) + [r]
      ensures old(Valid()) ==> Valid()
    {
      r := Reservation(isbn, exemplaireId, today.ordinal);
      reservations := reservations + [r];
    }
  }
}
