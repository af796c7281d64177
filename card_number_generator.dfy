/** Card-number generation and masking. The random source is an input: each
    `Draw` is the sixteen digits one call of the random number generator
    would produce for one candidate. */
module CardNumberGenerator {

  /** One value of `nextInt(10)`. */
  type Digit = d: int | 0 <= d < 10

  /** The sixteen digits drawn for one candidate card number. */
  type Draw = s: seq<Digit> | |s| == CardNumberLength witness [0, 0, 0, 0, 0, 0, 0, 0, 0, 0, 0, 0, 0, 0, 0, 0]

  /** Number of digits in a raw card number. */
  const CardNumberLength := 16

  /** Fixed prefix that replaces all but the last four characters. */
  const MaskPrefix: string := "**** **** **** "

  /** The decimal character `StringBuilder.append(int)` writes for a digit. */
  function DigitChar(d: Digit): (c: char)
    ensures '0' <= c <= '9'
    ensures c as int - '0' as int == d
  {
    ('0' as int + d) as char
  }

  predicate IsDigits(s: string) {
    forall i :: 0 <= i < |s| ==> '0' <= s[i] <= '9'
  }

  /** The string spelled by a sequence of digits, one character per digit. */
  function Spell(ds: seq<Digit>): (s: string) {
    seq(|ds|, i requires 0 <= i < |ds| => DigitChar(ds[i]))
  }

  /** The displayed form of a card number: the mask prefix followed by the
      number's last four characters. Shorter inputs are outside the domain
      (the substring index would be negative). */
  function MaskedCardNumber(cardNumber: string): (masked: string)
    requires |cardNumber| >= 4
    ensures |masked| == |MaskPrefix| + 4 == 19
    ensures masked[..4] == "****"
    ensures masked[|MaskPrefix|..] == cardNumber[|cardNumber| - 4..]
  {
    MaskPrefix + cardNumber[|cardNumber| - 4..]
  }

  /** Masking a masked number changes nothing. */
  lemma MaskIdempotent(cardNumber: string)
    requires |cardNumber| >= 4
    ensures MaskedCardNumber(MaskedCardNumber(cardNumber)) == MaskedCardNumber(cardNumber)
  {
  }

  /** Two numbers have the same mask exactly when they end in the same four
      characters. */
  lemma MaskEqualIff(a: string, b: string)
    requires |a| >= 4 && |b| >= 4
    ensures MaskedCardNumber(a) == MaskedCardNumber(b) <==> a[|a| - 4..] == b[|b| - 4..]
  {
    if MaskedCardNumber(a) == MaskedCardNumber(b) {
      assert a[|a| - 4..] == MaskedCardNumber(a)[|MaskPrefix|..];
    }
  }

  /** Builds one candidate number from sixteen drawn digits, appending one
      character per step. */
  method GenerateRandomCardNumber(draw: Draw) returns (cardNumber: string)
    ensures |cardNumber| == CardNumberLength
    ensures IsDigits(cardNumber)
    ensures cardNumber == Spell(draw)
  {
    cardNumber := "";
    for i := 0 to CardNumberLength
      invariant |cardNumber| == i
      invariant forall j :: 0 <= j < i ==> cardNumber[j] == DigitChar(draw[j])
    {
      cardNumber := cardNumber + [DigitChar(draw[i])];
    }
  }

  /** Some draw spells a number that is not yet taken; only then does the
      retry loop terminate. */
  predicate HasFresh(draws: seq<Draw>, existing: set<string>) {
    exists k :: 0 <= k < |draws| && Spell(draws[k]) !in existing
  }

  /** Index of the draw on which the retry loop stops: the first candidate
      not already taken. */
  function FirstFresh(draws: seq<Draw>, existing: set<string>): (k: nat)
    requires HasFresh(draws, existing)
    ensures k < |draws| && Spell(draws[k]) !in existing
    ensures forall j :: 0 <= j < k ==> Spell(draws[j]) in existing
  {
    if Spell(draws[0]) !in existing then 0
    else
      assert forall k :: 1 <= k < |draws| ==> draws[k] == draws[1..][k - 1];
      1 + FirstFresh(draws[1..], existing)
  }

  /** What `generateCardNumber` hands back: the mask of the first fresh
      candidate, not the candidate itself. */
  function Generated(draws: seq<Draw>, existing: set<string>): (cardNumber: string)
    requires HasFresh(draws, existing)
  {
    MaskedCardNumber(Spell(draws[FirstFresh(draws, existing)]))
  }

  /** The retry loop: draw candidates until one is not in `existing` (the
      store's card numbers), then return its masked form. Draw `k` is used on
      attempt `k`. */
  method GenerateCardNumber(draws: seq<Draw>, existing: set<string>) returns (cardNumber: string)
    requires HasFresh(draws, existing)
    ensures cardNumber == MaskedCardNumber(Spell(draws[FirstFresh(draws, existing)]))
    ensures |cardNumber| == |MaskPrefix| + 4 && cardNumber[..4] == "****"
  {
    var attempt := 0;
    cardNumber := GenerateRandomCardNumber(draws[attempt]);
    while cardNumber in existing
      invariant 0 <= attempt < |draws|
      invariant cardNumber == Spell(draws[attempt])
      invariant forall j :: 0 <= j < attempt ==> Spell(draws[j]) in existing
      decreases |draws| - attempt
    {
      attempt := attempt + 1;
      cardNumber := GenerateRandomCardNumber(draws[attempt]);
    }
    assert attempt == FirstFresh(draws, existing) by {
      var k := FirstFresh(draws, existing);
      assert !(k < attempt) && !(attempt < k);
    }
    cardNumber := MaskedCardNumber(cardNumber);
  }

  /** The uniqueness check compares a sixteen-digit candidate with the stored
      numbers; when every stored number is a mask (nineteen characters, as
      every number `createCard` stores is), the check never fires and the
      first draw is always taken. */
  lemma {:induction false} MaskedStoreNeverRetries(draws: seq<Draw>, existing: set<string>)
    requires |draws| > 0
    requires forall s :: s in existing ==> |s| == |MaskPrefix| + 4
    ensures HasFresh(draws, existing)
    ensures FirstFresh(draws, existing) == 0
  {
    assert |Spell(draws[0])| == CardNumberLength;
    assert Spell(draws[0]) !in existing;
  }

  /** The candidate is checked for uniqueness but its mask is returned: if a
      stored number is the mask of any string ending in the same four digits
      as the chosen candidate, the generated number is already taken. */
  lemma GeneratedCollides(draws: seq<Draw>, existing: set<string>, other: string)
    requires HasFresh(draws, existing)
    requires |other| >= 4 && MaskedCardNumber(other) in existing
    requires other[|other| - 4..] == Spell(draws[FirstFresh(draws, existing)])[CardNumberLength - 4..]
    ensures Generated(draws, existing) in existing
  {
    var candidate := Spell(draws[FirstFresh(draws, existing)]);
    MaskEqualIff(candidate, other);
  }
}
