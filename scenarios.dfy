/** The scenarios of the card service's unit tests, plus scenarios that
    exhibit the status and card-number quirks, restated against the model.
    Balances are in cents: 1000.00 is 100000. */
module Scenarios {
  import opened Cards
  import opened CardLedger
  import opened Service
  import CardNumberGenerator

  const Owner: UserId := 1
  const Stranger: UserId := 2
  const RecipientNumber := "1234567890123456"

  /** The sender and recipient of the service test's successful transfer. */
  method TransferStore() returns (s: CardService)
    ensures fresh(s) && s.Valid() && UniqueNumbers(s.cards)
    ensures s.cards == map[
      1 := Card("**** **** **** 0001", Owner, 100, Active, 100000),
      2 := Card(RecipientNumber, Owner, 100, Active, 50000)]
  {
    s := new CardService(map["testuser" := Owner], map[
      1 := Card("**** **** **** 0001", Owner, 100, Active, 100000),
      2 := Card(RecipientNumber, Owner, 100, Active, 50000)], 3);
  }

  method TransferBetweenOwnCards() {
    var s := TransferStore();
    assert s.cards[2].cardNumber == RecipientNumber;
    assert Recipient(s.cards, RecipientNumber) == 2;
    var r := s.Transfer(1, RecipientNumber, 10000, Owner);
    assert r == Ok;
    assert s.cards[1].balance == 90000 && s.cards[2].balance == 60000;
    assert s.cards[1].status == Active && s.cards[2].status == Active;
  }

  /** Four cards of which only the first two can trade with each other. */
  method RejectionStore() returns (s: CardService)
    ensures fresh(s) && s.Valid() && UniqueNumbers(s.cards)
    ensures s.cards == map[
      1 := Card("**** **** **** 0001", Owner, 100, Active, 5000),
      2 := Card(RecipientNumber, Owner, 100, Active, 50000),
      3 := Card("**** **** **** 0003", Owner, 100, Blocked, 100000),
      4 := Card("**** **** **** 0004", Stranger, 100, Active, 100000)]
  {
    s := new CardService(map["testuser" := Owner], map[
      1 := Card("**** **** **** 0001", Owner, 100, Active, 5000),
      2 := Card(RecipientNumber, Owner, 100, Active, 50000),
      3 := Card("**** **** **** 0003", Owner, 100, Blocked, 100000),
      4 := Card("**** **** **** 0004", Stranger, 100, Active, 100000)], 5);
  }

  method TransferOverBalance() {
    var s := RejectionStore();
    assert s.cards[2].cardNumber == RecipientNumber;
    assert Recipient(s.cards, RecipientNumber) == 2;
    var r := s.Transfer(1, RecipientNumber, 10000, Owner);
    assert r == Fail(InsufficientBalance) && s.cards[1].balance == 5000;
  }

  method TransferNonPositive() {
    var s := RejectionStore();
    assert s.cards[2].cardNumber == RecipientNumber;
    assert Recipient(s.cards, RecipientNumber) == 2;
    var r := s.Transfer(1, RecipientNumber, -10000, Owner);
    assert r == Fail(InsufficientBalance);
    r := s.Transfer(1, RecipientNumber, 0, Owner);
    assert r == Fail(InsufficientBalance) && s.cards[1].balance == 5000;
  }

  method TransferFromBlocked() {
    var s := RejectionStore();
    assert s.cards[2].cardNumber == RecipientNumber;
    assert Recipient(s.cards, RecipientNumber) == 2;
    var r := s.Transfer(3, RecipientNumber, 10000, Owner);
    assert r == Fail(CardNotActive) && s.cards[3].balance == 100000;
  }

  method TransferToStranger() {
    var s := RejectionStore();
    assert s.cards[2].cardNumber == RecipientNumber;
    assert Recipient(s.cards, RecipientNumber) == 2;
    assert s.cards[4].cardNumber == "**** **** **** 0004";
    assert Recipient(s.cards, "**** **** **** 0004") == 4;
    var r := s.Transfer(1, "**** **** **** 0004", 100, Owner);
    assert r == Fail(CardNotFound) && s.cards[4].balance == 100000;
  }

  method TransferFromMissingCard() {
    var s := RejectionStore();
    assert 9 !in s.cards;
    var r := s.Transfer(9, RecipientNumber, 100, Owner);
    assert r == Fail(CardNotFound);
  }

  method BlockingAndActivation() {
    var s := new CardService(map[], map[
      1 := Card("**** **** **** 0001", Owner, 100, Active, 0),
      2 := Card("**** **** **** 0002", Stranger, 100, Expired, 0)], 3);
    var r := s.BlockCard(1);
    assert r == Fail(CardNotReadyToBlock) && s.cards[1].status == Active;
    r := s.BlockOwnCard(1, Stranger);
    assert r == Fail(CardNotFound) && s.cards[1].status == Active;
    r := s.BlockOwnCard(1, Owner);
    assert r == Ok && s.cards[1].status == PendingToBlocking;
    r := s.BlockCard(1);
    assert r == Ok && s.cards[1].status == Blocked;
    // No status guard on activation: a blocked card becomes active again.
    r := s.ActivateCard(1);
    assert r == Ok && s.cards[1].status == Active;
    // No status guard on the owner's request: an expired card can be put
    // back into the blocking path.
    r := s.BlockOwnCard(2, Stranger);
    assert r == Ok && s.cards[2].status == PendingToBlocking;
    r := s.DeleteCard(2);
    assert r == Ok && 2 !in s.cards && s.cards[1].status == Active;
    r := s.DeleteCard(2);
    assert r == Fail(CardNotFound);
  }

  method ExpirySweep() {
    var s := new CardService(map[], map[
      1 := Card("**** **** **** 0001", Owner, 99, Active, 0),
      2 := Card("**** **** **** 0002", Owner, 200, Active, 0)], 3);
    s.UpdateExpirationTime(100);
    assert s.cards[1].status == Expired && s.cards[2].status == Active;
  }

  method DuplicateNumberOnCreate() {
    var stored := CardNumberGenerator.MaskedCardNumber(RecipientNumber);
    var s := new CardService(map["testuser" := Owner], map[
      1 := Card(stored, Owner, 100, Active, 0)], 2);
    var draw: CardNumberGenerator.Draw := [0, 0, 0, 0, 0, 0, 0, 0, 0, 0, 0, 0, 3, 4, 5, 6];
    CardNumberGenerator.MaskedStoreNeverRetries([draw], Numbers(s.cards));
    assert CardNumberGenerator.Spell(draw)[CardNumberGenerator.CardNumberLength - 4..] == "3456";
    var r := s.CreateCard("testuser", 0, 0, [draw]);
    assert r == Ok;
    assert s.cards[2].cardNumber == s.cards[1].cardNumber;
    assert !UniqueNumbers(s.cards);
  }
}
