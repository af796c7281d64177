/** Pure functions over the card table (a map from card id to card) that the
    service's operations are specified with, and the laws they obey. */
module CardLedger {
  import opened Cards

  type Table = map<CardId, Card>

  /** The card numbers currently stored (what `existsByCardNumber` consults). */
  function Numbers(m: Table): (ns: set<string>) {
    set id | id in m :: m[id].cardNumber
  }

  /** No two stored cards share a number (what `findByCardNumber` needs to
      return a single card). */
  predicate UniqueNumbers(m: Table) {
    forall a, b :: a in m && b in m && m[a].cardNumber == m[b].cardNumber ==> a == b
  }

  /** At most one stored card carries `number`: all `findByCardNumber`
      needs to return a single card for it. */
  predicate HeldOnce(m: Table, number: string) {
    forall a, b :: a in m && b in m && m[a].cardNumber == number && m[b].cardNumber == number ==> a == b
  }

  /** Every stored balance is non-negative. */
  predicate AllNonNegative(m: Table) {
    forall id :: id in m ==> m[id].balance >= 0
  }

  /** The two tables hold the same ids, and each card keeps its number,
      owner, validity and balance; only statuses may differ. */
  predicate SameExceptStatus(m: Table, m': Table) {
    && m'.Keys == m.Keys
    && forall id :: id in m ==> m'[id] == m[id].(status := m'[id].status)
  }

  /** The two tables hold the same ids, and each card keeps its number,
      owner, validity and status; only balances may differ. */
  predicate SameExceptBalance(m: Table, m': Table) {
    && m'.Keys == m.Keys
    && forall id :: id in m ==> m'[id] == m[id].(balance := m'[id].balance)
  }

  // ---------------------------------------------------------------- totals

  /** A non-empty set of ids has a member. */
  lemma HasMember(s: set<CardId>)
    requires s != {}
    ensures exists id :: id in s
  {
    if forall id :: id !in s {
      assert false;
    }
  }

  /** Sum of all stored balances. */
  ghost function Total(m: Table): (sum: int)
    decreases |m|
  {
    if |m| == 0 then 0
    else
      HasMember(m.Keys);
      var id :| id in m;
      m[id].balance + Total(m - {id})
  }

  /** The total may be split at any card, whichever card the definition
      happens to pick first. */
  lemma {:induction false} TotalRemove(m: Table, k: CardId)
    requires k in m
    ensures Total(m) == m[k].balance + Total(m - {k})
    decreases |m|
  {
    var id :| id in m && Total(m) == m[id].balance + Total(m - {id});
    if id != k {
      TotalRemove(m - {id}, k);
      TotalRemove(m - {k}, id);
      assert m - {id} - {k} == m - {k} - {id};
    }
  }

  /** Replacing one card changes the total by exactly its change in balance. */
  lemma TotalUpdate(m: Table, k: CardId, c: Card)
    requires k in m
    ensures Total(m[k := c]) == Total(m) - m[k].balance + c.balance
  {
    TotalRemove(m[k := c], k);
    TotalRemove(m, k);
    assert m[k := c] - {k} == m - {k};
  }

  /** Changing cards without touching any balance keeps the total. */
  lemma {:induction false} TotalSameBalances(m: Table, m': Table)
    requires m'.Keys == m.Keys
    requires forall id :: id in m ==> m'[id].balance == m[id].balance
    ensures Total(m') == Total(m)
    decreases |m|
  {
    if |m| != 0 {
      HasMember(m.Keys);
      var id :| id in m;
      TotalRemove(m, id);
      TotalRemove(m', id);
      TotalSameBalances(m - {id}, m' - {id});
    }
  }

  // -------------------------------------------------------------- transfer

  /** The card holding `number`, the one `findByCardNumber` returns when
      no other card carries that number. */
  ghost function Recipient(m: Table, number: string): (id: CardId)
    requires number in Numbers(m)
    ensures id in m && m[id].cardNumber == number
    ensures HeldOnce(m, number) ==> forall q :: q in m && m[q].cardNumber == number ==> q == id
  {
    var id :| id in m && m[id].cardNumber == number;
    id
  }

  /** The checks a transfer makes once both cards are found, in order:
      ownership of both, a positive amount the sender covers, both cards
      ACTIVE. */
  function TransferCheck(sender: Card, recipient: Card, amount: int, user: UserId): (verdict: Outcome) {
    if sender.owner != user || recipient.owner != user then Fail(CardNotFound)
    else if sender.balance < amount || amount <= 0 then Fail(InsufficientBalance)
    else if sender.status != Active || recipient.status != Active then Fail(CardNotActive)
    else Ok
  }

  /** A found pair of cards passes the checks exactly when the caller owns
      both, the amount is positive and at most the sender's balance, and both
      are ACTIVE. A failure names the first check that fails: ownership is
      checked before the amount, and the amount before the statuses. */
  lemma TransferCheckCases(sender: Card, recipient: Card, amount: int, user: UserId)
    ensures TransferCheck(sender, recipient, amount, user) == Ok <==>
      && sender.owner == user && recipient.owner == user
      && 0 < amount <= sender.balance
      && sender.status == Active && recipient.status == Active
    ensures TransferCheck(sender, recipient, amount, user) == Fail(InsufficientBalance) <==>
      sender.owner == user && recipient.owner == user && !(0 < amount <= sender.balance)
    ensures TransferCheck(sender, recipient, amount, user) == Fail(CardNotFound) <==>
      sender.owner != user || recipient.owner != user
    ensures TransferCheck(sender, recipient, amount, user) == Fail(CardNotActive) <==>
      && sender.owner == user && recipient.owner == user
      && 0 < amount <= sender.balance
      && !(sender.status == Active && recipient.status == Active)
    ensures TransferCheck(sender, recipient, amount, user) != Fail(CardNotReadyToBlock)
    ensures TransferCheck(sender, recipient, amount, user) != Fail(UserNotFound)
  {
  }

  /** Adds `amount` (possibly negative) to one card's balance. */
  function Credit(m: Table, id: CardId, amount: int): (m': Table)
    requires id in m
  {
    m[id := m[id].(balance := m[id].balance + amount)]
  }

  /** The table after a transfer: the sender is debited, then the recipient,
      read afresh, is credited. When both are the same card the second update
      sees the first. */
  function Transferred(m: Table, sender: CardId, recipient: CardId, amount: int): (m': Table)
    requires sender in m && recipient in m
  {
    Credit(Credit(m, sender, -amount), recipient, amount)
  }

  /** A transfer moves money only: every card keeps every other field, and
      between distinct cards the sender loses and the recipient gains exactly
      the amount while every other balance is unchanged. */
  lemma TransferredEffect(m: Table, sender: CardId, recipient: CardId, amount: int)
    requires sender in m && recipient in m
    ensures SameExceptBalance(m, Transferred(m, sender, recipient, amount))
    ensures sender != recipient ==>
      && Transferred(m, sender, recipient, amount)[sender].balance == m[sender].balance - amount
      && Transferred(m, sender, recipient, amount)[recipient].balance == m[recipient].balance + amount
    ensures forall id :: id in m && id != sender && id != recipient ==>
      Transferred(m, sender, recipient, amount)[id] == m[id]
  {
  }

  /** A transfer from a card to itself leaves the table as it was. */
  lemma TransferToSelf(m: Table, id: CardId, amount: int)
    requires id in m
    ensures Transferred(m, id, id, amount) == m
  {
    assert Transferred(m, id, id, amount)[id] == m[id];
  }

  /** Conservation: the two balances involved sum to the same value after the
      transfer, and so does the whole table. */
  lemma TransferConserves(m: Table, sender: CardId, recipient: CardId, amount: int)
    requires sender in m && recipient in m
    ensures var m' := Transferred(m, sender, recipient, amount);
      m'[sender].balance + m'[recipient].balance == m[sender].balance + m[recipient].balance
    ensures Total(Transferred(m, sender, recipient, amount)) == Total(m)
  {
    var m1 := Credit(m, sender, -amount);
    TotalUpdate(m, sender, m1[sender]);
    TotalUpdate(m1, recipient, Credit(m1, recipient, amount)[recipient]);
  }

  /** A transfer of a positive amount the sender can cover keeps every
      balance non-negative; the sender may be emptied exactly. */
  lemma TransferKeepsNonNegative(m: Table, sender: CardId, recipient: CardId, amount: int)
    requires sender in m && recipient in m
    requires AllNonNegative(m)
    requires 0 < amount <= m[sender].balance
    ensures AllNonNegative(Transferred(m, sender, recipient, amount))
    ensures sender != recipient && amount == m[sender].balance ==>
      Transferred(m, sender, recipient, amount)[sender].balance == 0
  {
  }

  // ---------------------------------------------------------- expiry sweep

  /** A card the sweep's query selects: past its validity and not yet
      expired. */
  predicate Expirable(c: Card, now: int) {
    c.validity < now && c.status != Expired
  }

  /** Ids the query `findByValidityPeriodBeforeAndStatusNot(now, EXPIRED)`
      returns. */
  function ExpirableIds(m: Table, now: int): (ids: set<CardId>) {
    set id | id in m && Expirable(m[id], now)
  }

  /** The table after the sweep: each selected card is set to EXPIRED. */
  function Swept(m: Table, now: int): (m': Table) {
    map id | id in m :: if Expirable(m[id], now) then m[id].(status := Expired) else m[id]
  }

  /** The sweep expires exactly the selected cards, leaves every other card
      as it was, touches no field but the status, and afterwards no card is
      selectable. */
  lemma SweptEffect(m: Table, now: int)
    ensures SameExceptStatus(m, Swept(m, now))
    ensures forall id :: id in m ==>
      Swept(m, now)[id].status == (if Expirable(m[id], now) then Expired else m[id].status)
    ensures forall id :: id in m && !Expirable(m[id], now) ==> Swept(m, now)[id] == m[id]
    ensures ExpirableIds(Swept(m, now), now) == {}
  {
    assert forall id :: id in ExpirableIds(Swept(m, now), now) ==>
      id in m && Expirable(Swept(m, now)[id], now);
  }

  /** Running the sweep twice with the same time changes nothing more. */
  lemma SweptIdempotent(m: Table, now: int)
    ensures Swept(Swept(m, now), now) == Swept(m, now)
  {
  }

  /** The sweep keeps every balance, hence the total. */
  lemma SweptKeepsTotal(m: Table, now: int)
    ensures Total(Swept(m, now)) == Total(m)
  {
    TotalSameBalances(m, Swept(m, now));
  }
}
