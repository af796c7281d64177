/** The card service: card creation, the two-step block, activation,
    deletion, balance query, transfer and the expiry sweep, over a card table
    the service updates in place. */
module Service {
  import opened Cards
  import opened CardLedger
  import CardNumberGenerator

  /** Length of a year in the timestamps the model uses (seconds in a
      365-day year). */
  const YearSeconds := 365 * 24 * 60 * 60

  /** Years a new card stays valid. */
  const ValidityYears := 2

  /** `plusYears` on a timestamp. */
  function PlusYears(t: int, years: nat): (r: int)
    ensures years > 0 ==> r > t
  {
    t + years * YearSeconds
  }

  class CardService {
    /** The card table (the card repository), keyed by card id. */
    var cards: Table
    /** The id the store assigns to the next saved card. */
    var nextId: CardId
    /** The user repository's username lookup. */
    const users: map<string, UserId>

    /** Every stored id is below the next id to be assigned. */
    ghost predicate Valid()
      reads this
    {
      forall id :: id in cards ==> id < nextId
    }

    /** A service over a store that already holds `cards`. */
    constructor (users: map<string, UserId>, cards: Table, nextId: CardId)
      requires forall id :: id in cards ==> id < nextId
      ensures Valid()
      ensures this.users == users && this.cards == cards && this.nextId == nextId
    {
      this.users := users;
      this.cards := cards;
      this.nextId := nextId;
    }

    /** Creates a card for `username` holding `balance`: PENDING, valid for
        two years from `now`, numbered by the generator from `draws`. The
        generator is only consulted once the user is found. */
    method CreateCard(username: string, balance: int, now: int, draws: seq<CardNumberGenerator.Draw>)
      returns (r: Outcome)
      requires Valid()
      requires username in users ==> CardNumberGenerator.HasFresh(draws, Numbers(cards))
      modifies this
      ensures Valid()
      ensures username !in users ==>
        r == Fail(UserNotFound) && cards == old(cards) && nextId == old(nextId)
      ensures username in users ==>
        && r == Ok
        && old(nextId) !in old(cards)
        && nextId == old(nextId) + 1
        && cards == old(cards)[old(nextId) := Card(
             CardNumberGenerator.Generated(draws, Numbers(old(cards))),
             users[username],
             PlusYears(now, ValidityYears),
             Pending,
             balance)]
      ensures old(AllNonNegative(cards)) && balance >= 0 ==> AllNonNegative(cards)
    {
      if username !in users {
        return Fail(UserNotFound);
      }
      var owner := users[username];
      var number := CardNumberGenerator.GenerateCardNumber(draws, Numbers(cards));
      var card := Card(number, owner, PlusYears(now, ValidityYears), Pending, balance);
      cards := cards[nextId := card];
      nextId := nextId + 1;
      r := Ok;
    }

    /** Administrative block: confirms a pending block request. */
    method BlockCard(id: CardId) returns (r: Outcome)
      requires Valid()
      modifies this`cards
      ensures Valid()
      ensures id !in old(cards) ==> r == Fail(CardNotFound) && cards == old(cards)
      ensures id in old(cards) && old(cards)[id].status != PendingToBlocking ==>
        r == Fail(CardNotReadyToBlock) && cards == old(cards)
      ensures id in old(cards) && old(cards)[id].status == PendingToBlocking ==>
        r == Ok && cards == old(cards)[id := old(cards)[id].(status := Blocked)]
      ensures SameExceptStatus(old(cards), cards)
    {
      if id !in cards {
        return Fail(CardNotFound);
      }
      var card := cards[id];
      if card.status != PendingToBlocking {
        return Fail(CardNotReadyToBlock);
      }
      card := card.(status := Blocked);
      cards := cards[id := card];
      r := Ok;
    }

    /** The owner's block request. A card of another user is reported as not
        found; the prior status is not checked. */
    method BlockOwnCard(id: CardId, user: UserId) returns (r: Outcome)
      requires Valid()
      modifies this`cards
      ensures Valid()
      ensures id !in old(cards) || old(cards)[id].owner != user ==>
        r == Fail(CardNotFound) && cards == old(cards)
      ensures id in old(cards) && old(cards)[id].owner == user ==>
        r == Ok && cards == old(cards)[id := old(cards)[id].(status := PendingToBlocking)]
      ensures SameExceptStatus(old(cards), cards)
    {
      if id !in cards {
        return Fail(CardNotFound);
      }
      var card := cards[id];
      if card.owner != user {
        return Fail(CardNotFound);
      }
      card := card.(status := PendingToBlocking);
      cards := cards[id := card];
      r := Ok;
    }

    /** Activation, from whatever status the card is in. */
    method ActivateCard(id: CardId) returns (r: Outcome)
      requires Valid()
      modifies this`cards
      ensures Valid()
      ensures id !in old(cards) ==> r == Fail(CardNotFound) && cards == old(cards)
      ensures id in old(cards) ==>
        r == Ok && cards == old(cards)[id := old(cards)[id].(status := Active)]
      ensures SameExceptStatus(old(cards), cards)
    {
      if id !in cards {
        return Fail(CardNotFound);
      }
      var card := cards[id];
      card := card.(status := Active);
      cards := cards[id := card];
      r := Ok;
    }

    /** Removes one card. */
    method DeleteCard(id: CardId) returns (r: Outcome)
      requires Valid()
      modifies this`cards
      ensures Valid()
      ensures id !in old(cards) ==> r == Fail(CardNotFound) && cards == old(cards)
      ensures id in old(cards) ==> r == Ok && cards == old(cards) - {id}
      ensures forall other :: other in old(cards) && other != id ==>
        other in cards && cards[other] == old(cards)[other]
    {
      if id !in cards {
        return Fail(CardNotFound);
      }
      cards := cards - {id};
      r := Ok;
    }

    /** The balance of the caller's own card; any other card, existing or
        not, is reported as not found. */
    function GetBalance(id: CardId, user: UserId): (r: Result<int>)
      reads this
      ensures r.Success? <==> id in cards && cards[id].owner == user
      ensures r.Success? ==> r.value == cards[id].balance
      ensures r.Failure? ==> r.error == CardNotFound
    {
      if id !in cards then Failure(CardNotFound)
      else if cards[id].owner != user then Failure(CardNotFound)
      else Success(cards[id].balance)
    }

    /** The repository lookup by card number. */
    method FindByCardNumber(number: string) returns (found: Option<CardId>)
      ensures found.Some? ==> found.value in cards && cards[found.value].cardNumber == number
      ensures found.None? <==> number !in Numbers(cards)
    {
      if number !in Numbers(cards) {
        return None;
      }
      var id :| id in cards && cards[id].cardNumber == number;
      found := Some(id);
    }

    /** The two balance updates of a successful transfer: debit the sender,
        then credit the recipient as it stands after the debit. */
    method MoveBalance(sender: CardId, recipient: CardId, amount: int)
      requires Valid()
      requires sender in cards && recipient in cards
      requires 0 < amount <= cards[sender].balance
      modifies this`cards
      ensures Valid()
      ensures cards == Transferred(old(cards), sender, recipient, amount)
      ensures SameExceptBalance(old(cards), cards)
      ensures Total(cards) == Total(old(cards))
      ensures old(AllNonNegative(cards)) ==> AllNonNegative(cards)
    {
      ghost var before := cards;
      var senderCard := cards[sender];
      senderCard := senderCard.(balance := senderCard.balance - amount);
      cards := cards[sender := senderCard];
      var recipientCard := cards[recipient];
      recipientCard := recipientCard.(balance := recipientCard.balance + amount);
      cards := cards[recipient := recipientCard];
      assert cards == Transferred(before, sender, recipient, amount);
      TransferredEffect(before, sender, recipient, amount);
      TransferConserves(before, sender, recipient, amount);
      if AllNonNegative(before) {
        TransferKeepsNonNegative(before, sender, recipient, amount);
      }
    }

    /** Moves `amount` from card `cardId` to the card numbered
        `recipientNumber`. Checks, first failure wins: the sender exists,
        the recipient exists, then `TransferCheck`. A failure changes
        nothing. */
    method Transfer(cardId: CardId, recipientNumber: string, amount: int, user: UserId)
      returns (r: Outcome)
      requires Valid()
      requires HeldOnce(cards, recipientNumber)
      modifies this`cards
      ensures Valid()
      ensures cardId !in old(cards) || recipientNumber !in Numbers(old(cards)) ==>
        r == Fail(CardNotFound)
      ensures cardId in old(cards) && recipientNumber in Numbers(old(cards)) ==>
        r == TransferCheck(old(cards)[cardId], old(cards)[Recipient(old(cards), recipientNumber)], amount, user)
      ensures r.Fail? ==> cards == old(cards)
      ensures r == Ok ==>
        cards == Transferred(old(cards), cardId, Recipient(old(cards), recipientNumber), amount)
      ensures SameExceptBalance(old(cards), cards)
      ensures Total(cards) == Total(old(cards))
      ensures old(AllNonNegative(cards)) ==> AllNonNegative(cards)
    {
      if cardId !in cards {
        return Fail(CardNotFound);
      }
      var senderCard := cards[cardId];
      var recipient := FindByCardNumber(recipientNumber);
      if recipient.None? {
        return Fail(CardNotFound);
      }
      var rid := recipient.value;
      assert rid == Recipient(cards, recipientNumber);
      var recipientCard := cards[rid];
      if senderCard.owner != user || recipientCard.owner != user {
        return Fail(CardNotFound);
      }
      if senderCard.balance < amount || amount <= 0 {
        return Fail(InsufficientBalance);
      }
      if senderCard.status != Active || recipientCard.status != Active {
        return Fail(CardNotActive);
      }
      MoveBalance(cardId, rid, amount);
      r := Ok;
    }

    /** The expiry sweep: every card past its validity at `now` and not yet
        EXPIRED becomes EXPIRED; the rest stay as they were. */
    method UpdateExpirationTime(now: int)
      requires Valid()
      modifies this`cards
      ensures Valid()
      ensures cards == Swept(old(cards), now)
    {
      ghost var before := cards;
      var expired := ExpirableIds(cards, now);
      while expired != {}
        invariant expired <= ExpirableIds(before, now)
        invariant cards.Keys == before.Keys
        invariant forall id :: id in before ==>
          cards[id] == if id in ExpirableIds(before, now) && id !in expired
                       then before[id].(status := Expired) else before[id]
        decreases |expired|
      {
        HasMember(expired);
        var id :| id in expired;
        var card := cards[id];
        card := card.(status := Expired);
        cards := cards[id := card];
        expired := expired - {id};
      }
      assert forall id :: id in before ==> cards[id] == Swept(before, now)[id];
      assert cards == Swept(before, now);
    }
  }

  /** Blocking is two-phase: the owner's request followed by the
      administrator's confirmation leaves the card BLOCKED, whatever its
      status was, and changes nothing else. */
  method RequestAndConfirmBlock(service: CardService, id: CardId, user: UserId)
    returns (requested: Outcome, confirmed: Outcome)
    requires service.Valid()
    requires id in service.cards && service.cards[id].owner == user
    modifies service`cards
    ensures service.Valid()
    ensures requested == Ok && confirmed == Ok
    ensures service.cards == old(service.cards)[id := old(service.cards)[id].(status := Blocked)]
  {
    requested := service.BlockOwnCard(id, user);
    confirmed := service.BlockCard(id);
  }

  /** A second sweep at the same time finds nothing to expire. */
  method SweepTwice(service: CardService, now: int)
    requires service.Valid()
    modifies service`cards
    ensures service.Valid()
    ensures service.cards == Swept(old(service.cards), now)
  {
    service.UpdateExpirationTime(now);
    service.UpdateExpirationTime(now);
    SweptIdempotent(old(service.cards), now);
  }

  /** A card that `createCard` adds at `now` is not picked by a sweep until
      its two-year validity has passed: a sweep at time `t` selects it
      exactly when `t` is later than its expiry. */
  lemma NewCardExpiresAfterValidity(number: string, owner: UserId, now: int, balance: int, t: int)
    ensures !Expirable(Card(number, owner, PlusYears(now, ValidityYears), Pending, balance), now)
    ensures Expirable(Card(number, owner, PlusYears(now, ValidityYears), Pending, balance), t)
      <==> t > PlusYears(now, ValidityYears)
  {
  }

  /** The generator's returned number is a mask, so a new card can receive
      the number of a stored card: whenever a stored number is the mask of a
      string ending in the same four digits as the accepted candidate, the
      table after creation no longer has unique numbers. */
  lemma CreateBreaksUniqueness(
    m: Table, draws: seq<CardNumberGenerator.Draw>, other: CardId, newId: CardId,
    owner: UserId, now: int, balance: int, shown: string)
    requires CardNumberGenerator.HasFresh(draws, Numbers(m))
    requires other in m && newId !in m
    requires |shown| >= 4 && m[other].cardNumber == CardNumberGenerator.MaskedCardNumber(shown)
    requires shown[|shown| - 4..]
      == CardNumberGenerator.Spell(draws[CardNumberGenerator.FirstFresh(draws, Numbers(m))])[CardNumberGenerator.CardNumberLength - 4..]
    ensures !UniqueNumbers(m[newId := Card(
      CardNumberGenerator.Generated(draws, Numbers(m)), owner, PlusYears(now, ValidityYears), Pending, balance)])
  {
    var candidate := CardNumberGenerator.Spell(draws[CardNumberGenerator.FirstFresh(draws, Numbers(m))]);
    CardNumberGenerator.MaskEqualIff(candidate, shown);
    var m' := m[newId := Card(
      CardNumberGenerator.Generated(draws, Numbers(m)), owner, PlusYears(now, ValidityYears), Pending, balance)];
    assert m'[newId].cardNumber == m'[other].cardNumber && newId != other;
  }
}
