# Bank cards: card lifecycle and transfer engine

This project models the card service of a small banking back end. The service
creates cards for users and moves them through the statuses PENDING, ACTIVE,
PENDING_TO_BLOCKING, BLOCKED and EXPIRED. It moves balance between two cards
of the same user and runs a periodic sweep that expires stale cards. It also
models the generator that draws card numbers and masks them for display.

Layout:

- `cards.dfy` (module `Cards`): the card record, its status, the service's
  failures as a tagged `Error`, and `Outcome`/`Result`.
- `card_number_generator.dfy` (module `CardNumberGenerator`): the sixteen-digit
  draw, the retry loop against the store's numbers, and the mask.
- `card_ledger.dfy` (module `CardLedger`): pure functions over the card table
  (`map<CardId, Card>`) that the service is specified with. They cover the
  total of all balances, the transfer update, the transfer checks, the sweep,
  and their laws.
- `card_service.dfy` (module `Service`): class `CardService`. It holds the card
  table, the next id the store assigns and the username lookup. Its methods
  update the table in place.
- `scenarios.dfy` (module `Scenarios`): the scenarios of `CardServiceTest`,
  plus scenarios that exhibit the status and card-number quirks, as verified
  method bodies.

Modelling choices:

- Balances and transfer amounts are exact integers in minor currency units.
- "Now" is an integer timestamp passed in. `plusYears(2)` adds two 365-day
  years.
- The random source is an input: a sequence of `Draw`s, each holding the
  sixteen digits one candidate uses. The retry loop ends on the first draw
  whose number is not stored. The model requires such a draw to exist, since
  that is exactly when the loop terminates.
- A user is identified by an integer. Owner checks compare these ids.
- The recipient of a transfer is looked up by card number. The transfer
  requires that no two stored cards carry the recipient's number, because
  otherwise the lookup would not return a single card. Duplicates among other
  numbers are allowed.
- When the sender and the recipient are the same card, the model applies the
  debit and then the credit to the same entry. This matches the update of the
  one shared object, so a self-transfer leaves the table unchanged.

The code departs from a lifecycle in which BLOCKED and EXPIRED are terminal
and card numbers are unique. The model follows the code:

- The generator checks the raw sixteen-digit candidate for uniqueness but
  returns its mask, and `createCard` stores that mask as the card number.
  Stored numbers are therefore `**** **** **** NNNN` strings, and numbers are
  not kept unique. Because a raw candidate never equals a stored mask, the
  retry loop never retries on a store that `createCard` filled.
- The owner's block request and activation check no prior status. A BLOCKED or
  EXPIRED card can be made ACTIVE, or put back to PENDING_TO_BLOCKING.
- The sweep overwrites the status of every selected card. It is not a
  conditional per-row update.
- The retry loop is unbounded. There is no "generator exhausted" failure.

## Model

| member | source | states |
|---|---|---|
| `CardNumberGenerator.DigitChar` | src/main/java/com/example/bankcards/util/CardNumberGenerator.java:31 | the character appended for a drawn digit is a decimal digit whose value is that digit |
| `CardNumberGenerator.GenerateRandomCardNumber` | src/main/java/com/example/bankcards/util/CardNumberGenerator.java:26-35 | the candidate has exactly 16 characters, all in `0`..`9`, and character `i` spells drawn digit `i` |
| `CardNumberGenerator.MaskedCardNumber` | src/main/java/com/example/bankcards/util/CardNumberGenerator.java:37-39 | the mask is 19 characters long, starts with `****`, and ends with the input's last four characters; inputs shorter than four are outside its domain |
| `CardNumberGenerator.MaskIdempotent` | src/main/java/com/example/bankcards/util/CardNumberGenerator.java:38 | masking a masked number gives the same string, so re-masking a stored number changes nothing |
| `CardNumberGenerator.MaskEqualIff` | src/main/java/com/example/bankcards/util/CardNumberGenerator.java:38 | two numbers have equal masks if and only if their last four characters are equal |
| `CardNumberGenerator.FirstFresh` | src/main/java/com/example/bankcards/util/CardNumberGenerator.java:18-20 | the draw the loop stops on is not among the stored numbers, and every earlier draw is |
| `CardNumberGenerator.GenerateCardNumber` | src/main/java/com/example/bankcards/util/CardNumberGenerator.java:16-24 | the loop uses draw `k` on attempt `k`, stops at the first fresh candidate and returns that candidate's mask, not the candidate: 19 characters starting with `****` |
| `CardNumberGenerator.MaskedStoreNeverRetries` | src/main/java/com/example/bankcards/util/CardNumberGenerator.java:18-22 | when every stored number is 19 characters long, as stored masks are, the first draw is always accepted: the uniqueness check cannot fire |
| `CardNumberGenerator.GeneratedCollides` | src/main/java/com/example/bankcards/util/CardNumberGenerator.java:20-23 | if a stored number is the mask of any string ending in the accepted candidate's last four digits, the returned number is already stored |
| `CardLedger.Recipient` | src/main/java/com/example/bankcards/repository/CardRepository.java:19 | the card found for a number carries that number, and when at most one card carries the number it is the only one |
| `CardLedger.TransferCheckCases` | src/main/java/com/example/bankcards/service/CardService.java:123-133 | once both cards are found, the checks pass if and only if the caller owns both, 0 < amount <= sender balance, and both are ACTIVE; the first failing check names the failure: CardNotFound exactly when the caller does not own both cards, InsufficientBalance exactly when ownership holds and the amount is non-positive or uncovered, CardNotActive exactly when ownership and amount pass and a card is not ACTIVE |
| `CardLedger.TransferredEffect` | src/main/java/com/example/bankcards/service/CardService.java:135-139 | a transfer changes balances only; for distinct cards the sender loses and the recipient gains exactly the amount, and every other card is unchanged |
| `CardLedger.TransferToSelf` | src/main/java/com/example/bankcards/service/CardService.java:135-136 | debiting then crediting the same card leaves the table as it was |
| `CardLedger.TransferConserves` | src/main/java/com/example/bankcards/service/CardService.java:135-136 | the two participants' balances keep their sum, and the total of all balances is unchanged |
| `CardLedger.TransferKeepsNonNegative` | src/main/java/com/example/bankcards/service/CardService.java:127-136 | a positive amount the sender covers keeps every balance non-negative; transferring the whole balance empties the sender exactly |
| `CardLedger.SweptEffect` | src/main/java/com/example/bankcards/service/CardService.java:143-149 | the sweep sets exactly the cards the query `findByValidityPeriodBeforeAndStatusNot` selects (validity before now, status not EXPIRED) to EXPIRED, changes no other field and no other card, and afterwards the query selects nothing |
| `CardLedger.SweptIdempotent` | src/main/java/com/example/bankcards/service/CardService.java:143-149 | a second sweep at the same time changes nothing |
| `CardLedger.SweptKeepsTotal` | src/main/java/com/example/bankcards/service/CardService.java:147 | the sweep leaves the total of all balances unchanged |
| `Service.PlusYears` | src/main/java/com/example/bankcards/service/CardService.java:155 | a validity a positive number of years ahead is later than now |
| `Service.CardService.constructor` | src/main/java/com/example/bankcards/service/CardService.java:34-39 | a service over a store that already holds the given cards and users |
| `Service.CardService.CreateCard` | src/main/java/com/example/bankcards/service/CardService.java:42-48 | an unknown username fails with UserNotFound and adds nothing; otherwise exactly one card is added under a new id, with the looked-up owner, the given balance, status PENDING, the generator's number (from `enrichCard`, lines 151-156), and validity now + 2 years; existing cards are untouched |
| `Service.CardService.BlockCard` | src/main/java/com/example/bankcards/service/CardService.java:72-80 | a missing id fails with CardNotFound; a card not in PENDING_TO_BLOCKING fails with CardNotReadyToBlock and is unchanged; otherwise only that card's status becomes BLOCKED |
| `Service.CardService.BlockOwnCard` | src/main/java/com/example/bankcards/service/CardService.java:83-91 | a missing card and another user's card both fail with the same CardNotFound and change nothing; otherwise that card becomes PENDING_TO_BLOCKING whatever its prior status, and nothing else changes |
| `Service.CardService.ActivateCard` | src/main/java/com/example/bankcards/service/CardService.java:94-99 | a missing id fails with CardNotFound; otherwise the card becomes ACTIVE from any prior status, including BLOCKED and EXPIRED, and nothing else changes |
| `Service.CardService.DeleteCard` | src/main/java/com/example/bankcards/service/CardService.java:102-106 | a missing id fails with CardNotFound; otherwise exactly that id is removed and every other card is kept as it was |
| `Service.CardService.GetBalance` | src/main/java/com/example/bankcards/service/CardService.java:108-115 | succeeds if and only if the card exists and the caller owns it, and then returns its stored balance; every other case is CardNotFound; it reads the store only |
| `Service.CardService.FindByCardNumber` | src/main/java/com/example/bankcards/repository/CardRepository.java:19 | a found card carries the number, and nothing is found exactly when the number is not among the stored card numbers |
| `Service.CardService.MoveBalance` | src/main/java/com/example/bankcards/service/CardService.java:135-139 | the debit then the credit yield the transfer table; only balances change; the total is kept and non-negative balances stay non-negative |
| `Service.CardService.Transfer` | src/main/java/com/example/bankcards/service/CardService.java:118-140 | checks run in order and the first failure wins: a missing sender or recipient gives CardNotFound, then ownership, amount and status as `TransferCheck`; any failure leaves the table unchanged; success debits the sender and credits the recipient; in every case statuses, owners and other fields are kept, the total of balances is unchanged and non-negative balances stay so |
| `Service.CardService.UpdateExpirationTime` | src/main/java/com/example/bankcards/service/CardService.java:143-149 | the table becomes the swept table: every card past its validity and not EXPIRED is EXPIRED, and all other cards are untouched |
| `Service.RequestAndConfirmBlock` | src/main/java/com/example/bankcards/service/CardService.java:72-91 | the owner's request followed by the administrator's confirmation succeeds on an owned card in any status and leaves it BLOCKED, with nothing else changed |
| `Service.SweepTwice` | src/main/java/com/example/bankcards/service/CardService.java:143-149 | running the sweep twice at the same time gives the same table as running it once |
| `Service.NewCardExpiresAfterValidity` | src/main/java/com/example/bankcards/service/CardService.java:155 | a card created at `now` is not selected by a sweep at `now`; a sweep at time `t` selects it exactly when `t` is after now + 2 years |
| `Service.CreateBreaksUniqueness` | src/main/java/com/example/bankcards/service/CardService.java:153 | when a stored number masks the same last four digits as the accepted candidate, storing the generated number leaves two cards with the same number |

## Left out

- The listing operations `getCards()`, `getCards(user, search, pageable)` and `getCard(id)` are left out. They are DTO mapping plus paging and sorting by the store.
- The controllers, JWT handling, authentication, the user service and the admin account initializer are left out. They are HTTP routing, token signing and startup I/O.
- The `setMaskedCardNumber` call in `enrichCard` (CardService.java:154) is left out. The card record has no such field. `MaskIdempotent` shows its value would equal the stored number.
- The conversion of a `double` amount with `BigDecimal.valueOf` is left out, because it is floating point. Amounts and balances are exact integers.
- Calendar arithmetic is left out. `LocalDateTime.now()` becomes a parameter, and `plusYears(2)` adds two 365-day years, ignoring leap days.
- `java.util.Random` is left out. Its digits are the `draws` input.
- Transactions and concurrency (`@Transactional`) are left out. The model is sequential.
- Exception messages and the identifier an exception carries are left out. Failures are tags only.
- Java's `User.equals` is left out: the model compares user ids. Lombok's `@Data` (src/main/java/com/example/bankcards/entity/User.java:13) compares users field by field, so the two blank `new User()` objects in `blockCard_ShouldThrowException_WhenCardNotBelongsToUser` (src/test/java/com/example/bankcards/service/CardServiceTest.java:207-217) are equal and the code would not throw there. The model's `Scenarios.BlockingAndActivation` follows that test's intent, with two distinct user ids.
- Service.CardService.Transfer: requires that at most one stored card carries the recipient's number. With a duplicate of that number, the repository's single-result lookup would not return one card, and that failure is not modelled. Duplicates of other numbers are allowed.
- Service.CardService.CreateCard: requires, for a known user, that some draw spells a number not stored. Without one, the retry loop runs forever, and a non-terminating call is not modelled.
- CardNumberGenerator.GenerateCardNumber: requires some draw's number not to be stored, the termination condition of the retry loop.
