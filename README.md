# Library lending ledger and book catalogue

This project models two parts of a small library application:

- **The lending ledger of one member** (`src/users.py`). It has four parts:
  - the subscription policy table, with its fallback to the `basique` tier;
  - the `Subscription` and `Loan` records;
  - the `User` state machine, covering the eligibility check `can_borrow` (with its monthly counter reset), `borrow`, `return_loan` with its late penalty, `renew_subscription`, `reserve`, `create` and `check_password`;
  - the count of open loans that the check compares against the tier limit.
- **The in-memory book catalogue** (`src/models.py`). It covers:
  - the two kinds of book and their tagged records (`to_dict`);
  - the decoding of one record when a catalogue is loaded;
  - the `Bibliotheque` class, with add, list, remove-by-ISBN and the title and author searches.
- **The earlier copy of the catalogue** (`TP1.py`). It uses the same books and records. Its removal reports nothing, its decoder fails on a missing key, and its load keeps the books decoded before a bad record.

Files:

- `wrappers.dfy`: `Option` and `Result`.
- `users.dfy`: module `Users`.
- `models.dfy`: module `Models`.
- `tp1.dfy`: module `Tp1`.
- `scenarios.dfy`: module `Scenarios`. These are whole runs of the classes, taken from the repository's tests and from the penalty and monthly-cap rules.

Modelling choices:

- `date.today()` is an explicit `today: Date` argument. A `Date` carries its day number together with its year, month and day.
- Stored dates are day numbers. The source only compares them, subtracts them and shifts them by whole days.
- The password digest is a function parameter `hash`.
- Penalty rates are exact reals.
- Exceptions are `Result` / `Option` values.

Returning the only loan does not let a `basique` member borrow again in the same month. The monthly counter is capped at the same number as the concurrent-loan limit (`src/users.py:106-109`), so a second loan is refused until the calendar month changes. `Scenarios.ReturnDoesNotLiftMonthlyCap` proves the refusal.

## Model

| member | source | states |
|---|---|---|
| Users.Policy | src/users.py:8-12 | An unknown tier gets the `basique` row (1 loan, 14 days, 0.5 per day). Every row allows at least one loan of at least one day at a positive rate. |
| Users.Subscription.constructor | src/users.py:48-52 | The subscription holds the given tier, start day and expiration day. |
| Users.Subscription.Renew | src/users.py:60-61 | The expiration moves by exactly `extraDays` days. |
| Users.Loan.constructor | src/users.py:19-26 | A new loan is open and carries no penalty. |
| Users.ActiveCount | src/users.py:104 | The number of loans with no return date never exceeds the number of loans. |
| Users.ActiveCountAfterAppend | src/users.py:124-126 | Appending an open loan raises the count of open loans by exactly one. |
| Users.ActiveCountAfterClose | src/users.py:130-133 | Closing one listed open loan lowers the count of open loans by exactly one, when no loan is listed twice. |
| Users.LateFee | src/users.py:134-137 | The penalty for a return strictly after the due day is at least one day's rate, so it is positive. |
| Users.LateFeeGrows | src/users.py:134-137 | A later return never costs less. |
| Users.CanBorrowCheck | src/users.py:88-109 | Borrowing is allowed iff no penalty is owed, a subscription runs today, and both the open-loan count and the (possibly reset) monthly counter are below the tier's limit. The counter and reset day are reset to 0 and the first of the month only past the penalty and subscription gates, and only in a new month. Otherwise both are left as they were. |
| Users.CheckSettlesForTheMonth | src/users.py:97-100 | The reset fires at most once per calendar month. Once a check has passed the penalty and subscription gates, a later check in the same month, with the same balance, the same subscription and the same open-loan count, on the counter and reset day the first check left, changes neither of them. If the subscription still runs on the later day, the answer is the same. |
| Users.MonthlyCapBlocks | src/users.py:106-109 | Once the monthly counter has reached the tier limit this month, the check refuses, whatever the number of open loans. |
| Users.User.constructor | src/users.py:64-75 | A new user has no loans, no reservations, no balance and a counter that was never reset, and the ledger invariant holds. |
| Users.User.Create | src/users.py:77-86 | The subscription starts today and expires 12 loan durations later, using the basique duration for an unknown tier. The tier name is stored verbatim. Checking the creation password succeeds. |
| Users.User.CheckPassword | src/users.py:85-86 | True iff the stored digest equals `hash(password)`; `Create` proves it holds for the creation password. |
| Users.User.CanBorrow | src/users.py:88-109 | The answer and the new counter and reset day are those of `CanBorrowCheck` on the state before the call. The ledger invariant is preserved. |
| Users.User.Borrow | src/users.py:118-127 | When the check refuses: `NotAllowed`, with the loans unchanged. Otherwise exactly one open loan dated today, due after the tier's duration, is appended. The monthly counter goes up by one, and the open-loan count rises by one while staying within the tier limit. |
| Users.User.ReturnLoan | src/users.py:129-141 | A loan already returned is left unchanged and costs 0, so a loan is charged at most once. Otherwise the return day is set. On time: 0 and the balance is unchanged. Late: the positive late fee is stored on the loan, added to the balance and returned. Late without a subscription: `NoSubscription`. The open-loan count drops by one. |
| Users.User.RenewSubscription | src/users.py:111-116 | Without a subscription: `None`. Otherwise the expiration grows by exactly `extraDays` and the new expiration is returned. |
| Users.User.Reserve | src/users.py:143-146 | Exactly one reservation dated today is appended. No duplicate check is made and the ledger invariant is preserved. |
| Models.ToDict | src/models.py:12-35 | The record carries the book's title, author and ISBN. It is tagged `"Livre"` for a printed book and `"Livre Numerique"` for a digital one, and it carries the file size iff the book is digital, so it has 5 keys or 4. |
| Models.FromDict | src/models.py:101-114 | A record tagged `"Livre Numerique"` decodes to a digital book; any other record, including one with no tag, decodes to a printed book. Each field is the record's value, or `""` when the key is missing. |
| Models.FromDictToDict | src/models.py:101-114 | Decoding the record of a book gives back the same book, of the same kind. |
| Models.EncodeAll | src/models.py:81 | One record per book, in order, each the book's `to_dict`. |
| Models.DecodeAll | src/models.py:100-115 | One book per record, in order, each decoded from its record. |
| Models.DecodeEncodeAll | src/models.py:100-115 | Loading the records of a list of books gives back that list. |
| Models.Matching | src/models.py:72-76 | The filter keeps exactly the books whose field equals the query, each as often as in the catalogue, in catalogue order. |
| Models.FirstIndex | src/models.py:65-70 | The position of the first book with this ISBN: none before it has it, and the book there has it, unless the position is the end. |
| Models.Bibliotheque.constructor | src/models.py:45-47 | A new catalogue is named and empty. |
| Models.Bibliotheque.AjouterLivre | src/models.py:49-50 | The book is appended at the end and the others are unchanged. |
| Models.Bibliotheque.Lister | src/models.py:61-63 | The answer equals the list of books, and nothing changes. |
| Models.Bibliotheque.SupprimerLivre | src/models.py:65-70 | If a book has this ISBN: true, with exactly the first such book removed and the rest kept in order. Otherwise: false, with the list unchanged. |
| Models.Bibliotheque.RechercheParTitre | src/models.py:72-73 | Exactly the books with this title, with their multiplicities, in catalogue order. |
| Models.Bibliotheque.RechercheParAuteur | src/models.py:75-76 | Exactly the books with this author, with their multiplicities, in catalogue order. |
| Models.Bibliotheque.Charger | src/models.py:88-115 | A file that cannot be read or parsed reports its error and leaves the catalogue as it was. Otherwise the catalogue is replaced by one decoded book per record, in order. |
| Tp1.ToDictKinds | TP1.py:11-28 | The record of a printed book is exactly the four-key dictionary `type: "Livre"`, title, author, ISBN; that of a digital book is exactly the five-key dictionary with `type: "Livre Numerique"` and the file size. |
| Tp1.FromDictStrict | TP1.py:72-84 | Decoding succeeds iff the tag and every field its kind needs are present, and then agrees with the lenient decoder. A failure names the first missing key in the read order `type`, `titre`, `auteur`, `ISBN`, `taille_fichier`. |
| Tp1.FirstBadRecord | TP1.py:71-85 | Every record before the returned position decodes, and the one at it, if any, does not. |
| Tp1.StrictLoadOfSaved | TP1.py:70-85 | Every record written for a book decodes strictly, so loading what was saved gives back every book, in order. |
| Tp1.Bibliotheque.constructor | TP1.py:31-33 | A new catalogue is named and empty. |
| Tp1.Bibliotheque.AjouterLivre | TP1.py:35-37 | The book is appended at the end. |
| Tp1.Bibliotheque.SupprimerLivre | TP1.py:39-45 | Exactly the first book with this ISBN is removed and the rest keep their order. An unknown ISBN leaves the list unchanged. |
| Tp1.Bibliotheque.RechercheParTitre | TP1.py:47-49 | Exactly the books with this title, in catalogue order. |
| Tp1.Bibliotheque.RechercheParAuteur | TP1.py:51-53 | Exactly the books with this author, in catalogue order. |
| Tp1.Bibliotheque.Charger | TP1.py:66-92 | An unreadable file leaves the catalogue unchanged. Otherwise the catalogue holds the books decoded before the first bad record. The status is `Loaded` iff every record decodes, and otherwise names the first missing key. |
| Scenarios.RenewRestoresBorrowing | tests/test_exemplar_subscription.py:25-34 | An expired subscription blocks borrowing. Renewing it by 30 days returns the new expiration, which is not before today, and borrowing is allowed again. |
| Scenarios.NewMemberBorrows | src/users.py:118-127 | A new basique member's first loan is granted: it is open, due in 14 days, the only loan listed, and counted once for the month. |
| Scenarios.BorrowThenCheckAgain | src/users.py:98-109 | After that loan, a second check the same day refuses, and the state is otherwise unchanged. |
| Scenarios.ReturnThenCheckAgain | src/users.py:129-141 | Returning that loan on time costs nothing. A check later that month still refuses, while a check in another month allows. |
| Scenarios.ReturnDoesNotLiftMonthlyCap | src/users.py:98-109 | The two steps in a row: a return does not lift the monthly cap within the month. |
| Scenarios.ReturnLateThenCheck | src/users.py:134-140 | Returning that loan 3 days late costs 1.5 and makes the balance 1.5, and the next check refuses. |
| Scenarios.LateReturnBlocks | src/users.py:88-90 | The two steps in a row: a late return leaves a balance that blocks borrowing. |
| Scenarios.CatalogueCrud | tests/test_models.py:16-30 | Add two books, remove the first by ISBN, save and reload: the reloaded catalogue holds exactly the digital book. |

## Left out

- File I/O in `sauvegarder`, `charger` and `export_csv`:
  - Reading and parsing the file is represented only by its outcome: a list of records, or a `LoadError`.
  - JSON values other than strings, and documents that are not a list of objects, are not modelled.
  - `export_csv` and `src/file_manager.py` are not part of this model.
- `to_dict` / `from_dict` of `User`, `Loan`, `Reservation` and `Subscription`: these depend on `dataclasses.asdict` and ISO date strings.
- `hash_password`: SHA-256 is a foreign call, so the digest is the uninterpreted parameter `hash`.
- `date.today()`:
  - It is the `today` argument.
  - The source reads the clock twice in `can_borrow`, and `borrow` reads it a third time after calling `can_borrow` (`src/users.py:123`). The model reads one `today` for the whole call, so a call that spans midnight is not modelled.
  - The caller must supply a `Date` whose day number and calendar fields agree.
- Users.Subscription.Renew, Users.User.RenewSubscription, Users.User.Create, Users.User.Borrow: day numbers are unbounded integers. Python dates only run from 0001-01-01 to 9999-12-31, and adding days beyond that range raises `OverflowError` (`src/users.py:61`, `82`, `124`). In the model these calls succeed, for example a renewal by ten million days.
- Users.LateFee: penalties are exact reals, not the binary floats of the source, so no rounding is modelled.
- Users.User.ReturnLoan: a late return by a user with no subscription raises `AttributeError` in the source after the return day has been set. It is modelled as `Failure(NoSubscription)` with the loan closed and the balance unchanged.
- Users.User.ReturnLoan: the open-loan count is stated only for a loan that is in the user's list and a ledger with no loan listed twice. The source does not check that the loan belongs to the user.
- Users.User.Borrow: the raised `ValueError` is `Failure(NotAllowed)`. Its message is not modelled.
- `User.subscription` is never reassigned by the modelled operations, so it is a constant reference. Its `date_expiration` can still change. Tests that assign a new subscription object are not modelled.
- `notifications`, `is_admin` and the password digest are carried but never changed by the modelled operations.
- Models.Bibliotheque.SupprimerLivre: `list.remove` deletes the first book equal to the found one. Books have no `__eq__`, so equality is identity, and the model removes by position. A book object inserted twice in the list (aliasing) is not modelled.
- Models.Bibliotheque.Lister: the returned list is a fresh copy in the source. In the model the value of a sequence cannot be shared or aliased.
- `afficher`, `__str__`, `__repr__` and the messages that TP1 prints are not modelled. TP1's `charger` outcome is the `LoadStatus` value instead.
- The exemplar inventory, reservation queues, recommendations and statistics do not exist in the modelled files and are not modelled.
- `src/gui.py`, the chat client and server, `main.py`, `src/interface.py`, `src/utils.py`, `src/exceptions.py` and the top-level script of `TP1.py` are not part of this model.
