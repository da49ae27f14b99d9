/** Text rendering of cards (card.cc): Roman numerals for the taroks,
    "Skiz" for the highest tarok and rank/suit letters for suit cards,
    with a parser that inverts the rendering. */
module CardNames {
  import opened Wrappers
  import opened Cards

  /** The symbol table ToRomanNumeral scans, largest value first. */
  const RomanValues: seq<int> := [10, 9, 5, 4, 1]
  const RomanSymbols: seq<string> := ["X", "IX", "V", "IV", "I"]

  /** Index of the first table entry whose value fits into rem. */
  function FirstFitting(rem: int): (k: nat)
    requires rem >= 1
    ensures k < |RomanValues| && RomanValues[k] <= rem
    ensures forall j :: 0 <= j < k ==> RomanValues[j] > rem
  {
    if rem >= 10 then 0
    else if rem >= 9 then 1
    else if rem >= 5 then 2
    else if rem >= 4 then 3
    else 4
  }

  /** The numeral ToRomanNumeral builds for n: the greedy choice of the
      largest fitting symbol, repeated; empty for n <= 0. */
  function RomanNumeral(n: int): string
    decreases n
  {
    if n <= 0 then ""
    else
      var k := FirstFitting(n);
      RomanSymbols[k] + RomanNumeral(n - RomanValues[k])
  }

  /** Renders a positive number as a Roman numeral, appending the largest
      symbol that still fits until the running sum reaches the number. */
  method ToRomanNumeral(number: int) returns (result: string)
    ensures result == RomanNumeral(number)
    ensures number <= 0 ==> result == ""
    ensures number >= 0 ==> ParseRoman(result) == Some(number)
  {
    result := "";
    var sum := 0;
    assert result + RomanNumeral(number - sum) == RomanNumeral(number) by {
      assert number - sum == number;
      assert "" + RomanNumeral(number) == RomanNumeral(number);
    }
    while sum < number
      invariant sum == 0 || sum <= number
      invariant result + RomanNumeral(number - sum) == RomanNumeral(number)
      decreases number - sum
    {
      var i := FittingSymbol(number, sum);
      GreedyStep(result, number, sum, i);
      result, sum := result + RomanSymbols[i], sum + RomanValues[i];
    }
    if number >= 0 {
      RomanRoundTrip(number);
    }
  }

  /** The inner scan of the loop: the first table entry that still fits
      between sum and number. */
  method FittingSymbol(number: int, sum: int) returns (i: nat)
    requires sum < number
    ensures i == FirstFitting(number - sum)
  {
    i := 0;
    while i < |RomanValues|
      invariant 0 <= i < |RomanValues|
      invariant forall j :: 0 <= j < i ==> sum + RomanValues[j] > number
      decreases |RomanValues| - i
    {
      if sum + RomanValues[i] <= number {
        return;
      }
      i := i + 1;
    }
  }

  /** One greedy step: when entry i is the first that fits into what is
      left of number after sum, appending its symbol to the text written so
      far keeps that text a prefix of the numeral for number. */
  lemma GreedyStep(written: string, number: int, sum: int, i: nat)
    requires i < |RomanValues| && sum + RomanValues[i] <= number
    requires forall j :: 0 <= j < i ==> sum + RomanValues[j] > number
    ensures RomanValues[i] >= 1
    ensures written + RomanNumeral(number - sum)
      == (written + RomanSymbols[i]) + RomanNumeral(number - (sum + RomanValues[i]))
  {
    var rem := number - sum;
    assert i == FirstFitting(rem);
    var sym, tail := RomanSymbols[i], RomanNumeral(number - (sum + RomanValues[i]));
    assert number - (sum + RomanValues[i]) == rem - RomanValues[i];
    assert RomanNumeral(rem) == sym + tail;
    assert written + (sym + tail) == (written + sym) + tail;
  }

  /** Reads a numeral written with the symbols of the table back into its
      value; None for any other text. */
  function ParseRoman(s: string): Option<nat>
    decreases |s|
  {
    if s == [] then Some(0)
    else if |s| >= 2 && s[0] == 'I' && s[1] == 'X' then Plus(9, ParseRoman(s[2..]))
    else if |s| >= 2 && s[0] == 'I' && s[1] == 'V' then Plus(4, ParseRoman(s[2..]))
    else if s[0] == 'X' then Plus(10, ParseRoman(s[1..]))
    else if s[0] == 'V' then Plus(5, ParseRoman(s[1..]))
    else if s[0] == 'I' then Plus(1, ParseRoman(s[1..]))
    else None
  }

  function Plus(v: nat, rest: Option<nat>): Option<nat>
  {
    match rest
    case None => None
    case Some(r) => Some(v + r)
  }

  /** Reading one table symbol followed by more text; a lone "I" must not
      be followed by X or V, which the greedy choice guarantees. */
  lemma ParseAfterSymbol(k: nat, rest: string)
    requires k < |RomanSymbols|
    requires k == 4 && rest != [] ==> rest[0] == 'I'
    ensures ParseRoman(RomanSymbols[k] + rest) == Plus(RomanValues[k], ParseRoman(rest))
  {
    var s := RomanSymbols[k] + rest;
    assert s[|RomanSymbols[k]|..] == rest;
    if k == 0 {
      assert s[0] == 'X';
    } else if k == 1 {
      assert s[0] == 'I' && s[1] == 'X';
    } else if k == 2 {
      assert s[0] == 'V';
    } else if k == 3 {
      assert s[0] == 'I' && s[1] == 'V';
    } else {
      assert s[0] == 'I';
      assert |s| >= 2 ==> s[1] == 'I';
    }
  }

  /** Below four the numeral consists of 'I's only. */
  lemma {:induction false} SmallNumeralIsOnes(n: int)
    requires 0 < n < 4
    ensures RomanNumeral(n) != [] && RomanNumeral(n)[0] == 'I'
    ensures forall i :: 0 <= i < |RomanNumeral(n)| ==> RomanNumeral(n)[i] == 'I'
    decreases n
  {
    if n > 1 {
      SmallNumeralIsOnes(n - 1);
    }
  }

  /** Reading the numeral of n back gives n: the values of the emitted
      symbols sum to n. */
  lemma {:induction false} RomanRoundTrip(n: nat)
    ensures ParseRoman(RomanNumeral(n)) == Some(n)
    decreases n
  {
    if n > 0 {
      var k := FirstFitting(n);
      var m := n - RomanValues[k];
      var rest := RomanNumeral(m);
      assert RomanNumeral(n) == RomanSymbols[k] + rest;
      RomanRoundTrip(m);
      if k == 4 && rest != [] {
        assert 0 < m < 4;
        SmallNumeralIsOnes(m);
      }
      ParseAfterSymbol(k, rest);
    }
  }

  /** Every numeral is written with X, V and I only. */
  lemma {:induction false} RomanLetters(n: int)
    ensures forall i :: 0 <= i < |RomanNumeral(n)| ==> RomanNumeral(n)[i] in "XVI"
    decreases n
  {
    if n > 0 {
      var k := FirstFitting(n);
      RomanLetters(n - RomanValues[k]);
    }
  }

  function SuitLetter(s: Suit): char
  {
    match s
    case Hearts => 'H'
    case Diamonds => 'D'
    case Clubs => 'C'
    case Spades => 'S'
    case Tarok => '?'
  }

  function RankLetter(r: SuitRank): char
  {
    match r
    case AceTen => 'A'
    case Jack => 'J'
    case Rider => 'R'
    case Queen => 'Q'
    case King => 'K'
  }

  /** The name of a card: "Skiz", the Roman numeral of a tarok's rank
      (Pagat is "I"), or rank letter, '/', suit letter. */
  function CardToString(card: int): (name: string)
    requires 0 <= card < DeckSize
    ensures card == Skiz ==> name == "Skiz"
    ensures card < Skiz ==> name == RomanNumeral(card + 1) && ParseRoman(name) == Some(card + 1)
    ensures card >= NumTaroks ==>
      |name| == 3 && name[1] == '/' &&
      name[0] == RankLetter(CardRank(card)) && name[2] == SuitLetter(CardSuit(card))
  {
    if card < NumTaroks then
      if card == Skiz then "Skiz"
      else RomanRoundTrip(card + 1); RomanNumeral(card + 1)
    else
      [RankLetter(CardRank(card))] + "/" + [SuitLetter(CardSuit(card))]
  }

  function SuitOfLetter(c: char): Option<Suit>
  {
    if c == 'H' then Some(Hearts)
    else if c == 'D' then Some(Diamonds)
    else if c == 'C' then Some(Clubs)
    else if c == 'S' then Some(Spades)
    else None
  }

  function RankOfLetter(c: char): Option<SuitRank>
  {
    if c == 'A' then Some(AceTen)
    else if c == 'J' then Some(Jack)
    else if c == 'R' then Some(Rider)
    else if c == 'Q' then Some(Queen)
    else if c == 'K' then Some(King)
    else None
  }

  /** Reads a card name back into the card. */
  function ParseCardName(name: string): Option<int>
  {
    if name == "Skiz" then Some(Skiz)
    else if |name| == 3 && name[1] == '/' then
      match (RankOfLetter(name[0]), SuitOfLetter(name[2]))
      case (Some(r), Some(s)) => Some(MakeSuitCard(s, r))
      case _ => None
    else
      match ParseRoman(name)
      case Some(n) => if 1 <= n <= 21 then Some(n - 1) else None
      case None => None
  }

  /** Every card name reads back as its card, so distinct cards have
      distinct names. */
  lemma CardNameRoundTrip(card: int)
    requires 0 <= card < DeckSize
    ensures ParseCardName(CardToString(card)) == Some(card)
  {
    var name := CardToString(card);
    if card < Skiz {
      RomanLetters(card + 1);
      assert name[0] != 'S';
      if |name| == 3 {
        assert name[1] != '/';
      }
    } else if card >= NumTaroks {
      var r := CardRank(card);
      var s := CardSuit(card);
      assert name != "Skiz";
      assert card == NumTaroks + SuitIndex(s) * NumRanksPerSuit + RankIndex(r);
    }
  }

  lemma CardNamesAreDistinct(a: int, b: int)
    requires 0 <= a < DeckSize && 0 <= b < DeckSize
    requires CardToString(a) == CardToString(b)
    ensures a == b
  {
    CardNameRoundTrip(a);
    CardNameRoundTrip(b);
  }

  /** Pagat is rendered "I" and XXI "XXI". */
  lemma HonourNames()
    ensures CardToString(Pagat) == "I"
    ensures CardToString(XXI) == "XXI"
  {
    assert RomanNumeral(1) == "I";
    assert RomanNumeral(1) == "I" + RomanNumeral(0);
    assert RomanNumeral(11) == "X" + RomanNumeral(1);
    assert RomanNumeral(21) == "X" + RomanNumeral(11);
  }
}
