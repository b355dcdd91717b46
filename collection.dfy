/** `CardCollection<N>` of src/model/game.rs (lines 45-116): `N` optional card
    slots and a 54-slot `excluded` array. The const generic `N` becomes the
    length of `cards`, which every constructor below fixes. */
module Collections {
  import opened Wrappers
  import opened Text
  import opened Cards
  import Patterns

  /** NUM_CARDS (line 13), the size of `excluded`. */
  const NumCards: nat := 54

  datatype CardCollection = CardCollection(cards: seq<Option<Card>>, excluded: seq<Option<Card>>)

  /** `[None; n]`. */
  function Empty(n: nat): (slots: seq<Option<Card>>)
    ensures |slots| == n && forall i :: 0 <= i < n ==> slots[i].None?
  {
    seq(n, _ => None)
  }

  /** `CardCollection::new`: every slot and every excluded slot empty. */
  function New(n: nat): (c: CardCollection)
    ensures |c.cards| == n && |c.excluded| == NumCards
    ensures forall card: Card :: !Contains(c, card) && !Excludes(c, card)
  {
    CardCollection(Empty(n), Empty(NumCards))
  }

  /** `contains`: some slot holds `card`. */
  predicate Contains(c: CardCollection, card: Card)
    ensures Contains(c, card) <==> exists i :: 0 <= i < |c.cards| && c.cards[i] == Some(card)
  {
    Some(card) in c.cards
  }

  /** `excludes`: some excluded slot holds `card`. */
  predicate Excludes(c: CardCollection, card: Card)
    ensures Excludes(c, card) <==> exists i :: 0 <= i < |c.excluded| && c.excluded[i] == Some(card)
  {
    Some(card) in c.excluded
  }

  /** `TryFrom<&Vec<Card>>`: the vector fills the slots in order when its
      length is the capacity. */
  function TryFromVec(v: seq<Card>, n: nat): (r: Result<CardCollection>)
    ensures r.Ok? <==> |v| == n
    ensures r.Ok? ==> |r.value.cards| == n && forall i :: 0 <= i < n ==> r.value.cards[i] == Some(v[i])
    ensures r.Ok? ==> r.value.excluded == Empty(NumCards)
    ensures r.Err? ==> r.error == "Invalid vector length"
  {
    if |v| == n then Ok(CardCollection(seq(n, i requires 0 <= i < n => Some(v[i])), Empty(NumCards)))
    else Err("Invalid vector length")
  }

  /** The first `n` of the matches `ms` decoded by `Card::from_str`, then
      `None` up to `n` slots: the `.chain(iter::repeat(Ok(None))).take(N)`
      of `from_str`. A match that does not decode is "Invalid card". */
  function DecodeMatches(ms: seq<string>, n: nat): (r: Result<seq<Option<Card>>>)
    ensures r.Ok? ==> |r.value| == n
    ensures r.Err? ==> r.error == "Invalid card"
  {
    if n == 0 then Ok([])
    else if ms == [] then Ok(Empty(n))
    else
      match Cards.FromStr(ms[0])
      case Err(_) => Err("Invalid card")
      case Ok(card) =>
        match DecodeMatches(ms[1..], n - 1)
        case Err(e) => Err(e)
        case Ok(rest) => Ok([Some(card)] + rest)
  }

  /** Matches of the card pattern always decode; slot `i` holds the card
      whose code is match `i`, and the slots past the matches are empty. */
  lemma {:induction false} DecodeTokens(ms: seq<string>, n: nat)
    requires forall m <- ms :: Patterns.IsHandToken(m)
    ensures DecodeMatches(ms, n).Ok?
    ensures forall i :: 0 <= i < n ==> (DecodeMatches(ms, n).value[i].Some? <==> i < |ms|)
    ensures forall i :: 0 <= i < n && i < |ms| ==>
              Code(DecodeMatches(ms, n).value[i].value) == ToUpper(ms[i])
  {
    if n > 0 && ms != [] {
      var m, rest := ms[0], ms[1..];
      Patterns.HandTokenIffCode(m);
      var card := Cards.FromStr(m).value;
      DecodeSound(m, card);
      DecodeTokens(rest, n - 1);
      assert DecodeMatches(ms, n) == Ok([Some(card)] + DecodeMatches(rest, n - 1).value);
    }
  }

  /** `CardCollection::from_str`: the first `n` card tokens the pattern finds
      in `s`, left to right, decoded and padded with empty slots; `excluded`
      is empty. The "Invalid card" error cannot happen. */
  function FromStr(s: string, n: nat): (r: Result<CardCollection>)
    ensures r.Ok? && |r.value.cards| == n && r.value.excluded == Empty(NumCards)
  {
    var ms := Patterns.CardMatches(s);
    DecodeTokens(ms, n);
    match DecodeMatches(ms, n)
    case Err(e) => Err(e)
    case Ok(slots) => Ok(CardCollection(slots, Empty(NumCards)))
  }

  /** Slot `i` of a decoded collection holds the card whose code is the
      `i`-th token the pattern finds, and the slots past the tokens found
      are empty. */
  lemma FromStrSlots(s: string, n: nat)
    ensures forall i :: 0 <= i < n ==> (FromStr(s, n).value.cards[i].Some? <==> i < |Patterns.CardMatches(s)|)
    ensures forall i :: 0 <= i < n && i < |Patterns.CardMatches(s)| ==>
              Code(FromStr(s, n).value.cards[i].value) == ToUpper(Patterns.CardMatches(s)[i])
  {
    DecodeTokens(Patterns.CardMatches(s), n);
  }

  /** Decoding the matches depends on them only up to case. */
  lemma {:induction false} DecodeMatchesIgnoreCase(ms: seq<string>, us: seq<string>, n: nat)
    requires Patterns.UpperEach(us, ms)
    ensures DecodeMatches(ms, n) == DecodeMatches(us, n)
  {
    if n > 0 && ms != [] {
      Patterns.UpperEachTail(us, ms);
      CaseInsensitive(ms[0]);
      DecodeMatchesIgnoreCase(ms[1..], us[1..], n - 1);
    }
  }

  /** Decoding a collection ignores ASCII case. */
  lemma FromStrIgnoresCase(s: string, n: nat)
    ensures FromStr(s, n) == FromStr(ToUpper(s), n)
  {
    Patterns.CardMatchesIgnoreCase(s);
    DecodeMatchesIgnoreCase(Patterns.CardMatches(s), Patterns.CardMatches(ToUpper(s)), n);
  }

  /** A string in which the card pattern finds nothing decodes to a new,
      empty collection. */
  lemma FromStrOfNoMatches(s: string, n: nat)
    requires Patterns.CardMatches(s) == []
    ensures FromStr(s, n) == Ok(New(n))
  {
  }

  /** An empty string and a string of non-tokens decode to empty collections. */
  lemma FromStrOfNothing(n: nat)
    ensures FromStr("", n) == Ok(New(n))
    ensures FromStr("asdaP07sd", n) == Ok(New(n))
  {
    Patterns.SkipsNonTokens();
    FromStrOfNoMatches("asdaP07sd", n);
  }

  /** A bare number is a token of the won-tricks fields, but the card pattern
      that `from_str` runs finds no card in it, so it is dropped: the won
      tricks `15` decode to an empty collection. */
  lemma WonNumberDropped()
    ensures Patterns.Rep("15", Patterns.Won, 0, 54)
    ensures Patterns.CardMatches("15") == []
    ensures FromStr("15", NumCards) == Ok(New(NumCards))
  {
    Patterns.WonTricksAcceptNumbers();
    var s := "15";
    assert Patterns.CardMatchLen(s[1..]) == 0;
    assert Patterns.CardMatches(s[1..]) == [];
    assert Patterns.CardMatchLen(s) == 0;
    FromStrOfNoMatches(s, NumCards);
  }

  // ---------------------------------------------------------------------
  // Equality (lines 104-116).
  // ---------------------------------------------------------------------

  /** The `HashSet` of a slot array. */
  function Values(slots: seq<Option<Card>>): set<Option<Card>>
  {
    set x | x in slots
  }

  /** The number of empty slots. */
  function NoneCount(slots: seq<Option<Card>>): nat
  {
    if slots == [] then 0 else (if slots[0].None? then 1 else 0) + NoneCount(slots[1..])
  }

  /** `PartialEq::eq`: the same set of slot values, the same set of excluded
      values and the same number of empty slots. Multiplicities of cards and
      the order of the slots are not compared. */
  predicate Equal(a: CardCollection, b: CardCollection)
    ensures Equal(a, b) ==> forall card: Card :: Contains(a, card) <==> Contains(b, card)
    ensures Equal(a, b) ==> forall card: Card :: Excludes(a, card) <==> Excludes(b, card)
    ensures Equal(a, b) ==> multiset(a.cards)[None] == multiset(b.cards)[None]
  {
    NoneCountIsMultiplicity(a.cards);
    NoneCountIsMultiplicity(b.cards);
    assert forall x :: x in Values(a.cards) <==> x in a.cards;
    assert forall x :: x in Values(b.cards) <==> x in b.cards;
    assert forall x :: x in Values(a.excluded) <==> x in a.excluded;
    assert forall x :: x in Values(b.excluded) <==> x in b.excluded;
    && Values(a.cards) == Values(b.cards)
    && Values(a.excluded) == Values(b.excluded)
    && NoneCount(a.cards) == NoneCount(b.cards)
  }

  /** The number of empty slots is the multiplicity of `None`. */
  lemma {:induction false} NoneCountIsMultiplicity(slots: seq<Option<Card>>)
    ensures NoneCount(slots) == multiset(slots)[None]
  {
    if slots != [] {
      NoneCountIsMultiplicity(slots[1..]);
      assert slots == [slots[0]] + slots[1..];
    }
  }

  lemma EqualReflexive(a: CardCollection)
    ensures Equal(a, a)
  {
  }

  lemma EqualSymmetric(a: CardCollection, b: CardCollection)
    requires Equal(a, b)
    ensures Equal(b, a)
  {
  }

  lemma EqualTransitive(a: CardCollection, b: CardCollection, c: CardCollection)
    requires Equal(a, b) && Equal(b, c)
    ensures Equal(a, c)
  {
  }

  /** Collections whose slots are a permutation of each other, with the same
      excluded values, are equal. */
  lemma {:induction false} EqualOfPermutation(a: CardCollection, b: CardCollection)
    requires multiset(a.cards) == multiset(b.cards)
    requires Values(a.excluded) == Values(b.excluded)
    ensures Equal(a, b)
  {
    NoneCountIsMultiplicity(a.cards);
    NoneCountIsMultiplicity(b.cards);
    forall x | x in a.cards ensures x in b.cards {
      assert x in multiset(a.cards);
    }
    forall x | x in b.cards ensures x in a.cards {
      assert x in multiset(b.cards);
    }
  }

  /** Equality is not a multiset comparison: a repeated card may stand in for
      another card that is also present. */
  lemma EqualIgnoresMultiplicity()
    ensures Equal(CardCollection([Some(H1), Some(H1), Some(H2)], Empty(NumCards)),
                  CardCollection([Some(H1), Some(H2), Some(H2)], Empty(NumCards)))
    ensures multiset([Some(H1), Some(H1), Some(H2)]) != multiset([Some(H1), Some(H2), Some(H2)])
  {
    var a: seq<Option<Card>> := [Some(H1), Some(H1), Some(H2)];
    var b: seq<Option<Card>> := [Some(H1), Some(H2), Some(H2)];
    assert Values(a) == {Some(H1), Some(H2)};
    assert Values(b) == {Some(H1), Some(H2)};
    assert multiset(a)[Some(H1)] == 2 && multiset(b)[Some(H1)] == 1;
  }

  /** Two collections holding the same slot values, empty slots included,
      and the same excluded cards, are still unequal when they hold a
      different number of empty slots. */
  lemma UnequalNoneCount()
    ensures var a := CardCollection([Some(H1), None, None], Empty(NumCards));
            var b := CardCollection([Some(H1), Some(H1), None], Empty(NumCards));
            && Values(a.cards) == Values(b.cards)
            && Values(a.excluded) == Values(b.excluded)
            && !Equal(a, b)
  {
    var a := CardCollection([Some(H1), None, None], Empty(NumCards));
    var b := CardCollection([Some(H1), Some(H1), None], Empty(NumCards));
    assert Values(a.cards) == {Some(H1), None} == Values(b.cards);
    assert NoneCount(a.cards) == 2 && NoneCount(b.cards) == 1;
  }

  // ---------------------------------------------------------------------
  // Writing cards back as codes.
  // ---------------------------------------------------------------------

  /** The codes of `cs`, written one after the other. */
  function JoinCodes(cs: seq<Card>): string
  {
    if cs == [] then [] else Code(cs[0]) + JoinCodes(cs[1..])
  }

  /** A card token is matched whole when no digit follows it. */
  lemma TokenMatchedWhole(t: string, rest: string)
    requires Patterns.IsHandToken(t)
    requires rest == [] || rest[0] !in Patterns.Digits
    ensures Patterns.CardMatchLen(t + rest) == |t|
  {
  }

  /** A code is matched whole when what follows it starts another code. */
  lemma CodeMatchedWhole(c: Card, rest: string)
    requires rest == [] || rest[0] in "HKPXT."
    ensures Patterns.CardMatchLen(Code(c) + rest) == |Code(c)|
  {
    DecodeCode(c);
    Patterns.HandTokenIffCode(Code(c));
    TokenMatchedWhole(Code(c), rest);
  }

  /** Every code is non-empty and starts with a suit letter, T or `.`. */
  lemma CodeStart(c: Card)
    ensures |Code(c)| >= 1 && Code(c)[0] in "HKPXT."
  {
    Cards.CodeInTable(c);
  }

  /** The code of each card of `cs`. */
  function Codes(cs: seq<Card>): (ts: seq<string>)
    ensures |ts| == |cs| && forall i :: 0 <= i < |cs| ==> ts[i] == Code(cs[i])
  {
    seq(|cs|, i requires 0 <= i < |cs| => Code(cs[i]))
  }

  /** The card pattern finds exactly the codes of a list of cards written
      one after the other. */
  lemma {:induction false} MatchesOfCodes(cs: seq<Card>)
    ensures Patterns.CardMatches(JoinCodes(cs)) == Codes(cs)
  {
    if cs != [] {
      var c, rest := cs[0], JoinCodes(cs[1..]);
      if cs[1..] != [] {
        CodeStart(cs[1]);
        assert rest == Code(cs[1]) + JoinCodes(cs[1..][1..]);
      }
      CodeMatchedWhole(c, rest);
      CodeStart(c);
      var s := Code(c) + rest;
      assert s[..|Code(c)|] == Code(c) && s[|Code(c)|..] == rest;
      MatchesOfCodes(cs[1..]);
      assert Codes(cs) == [Code(c)] + Codes(cs[1..]);
    }
  }

  /** The first `n` cards of `cs` in slots, then empty slots. */
  function Slots(cs: seq<Card>, n: nat): (slots: seq<Option<Card>>)
    ensures |slots| == n
    ensures forall i :: 0 <= i < n ==> slots[i] == if i < |cs| then Some(cs[i]) else None
  {
    seq(n, i requires 0 <= i < n => if i < |cs| then Some(cs[i]) else None)
  }

  /** Decoding a list of cards written as codes gives back the first `n`
      cards, in order, then empty slots. */
  lemma FromStrOfCodes(cs: seq<Card>, n: nat)
    ensures FromStr(JoinCodes(cs), n).value.cards == Slots(cs, n)
  {
    MatchesOfCodes(cs);
    FromStrSlots(JoinCodes(cs), n);
    var slots := FromStr(JoinCodes(cs), n).value.cards;
    forall i | 0 <= i < n
      ensures slots[i] == Slots(cs, n)[i]
    {
      if i < |cs| {
        CodeIsUpper(cs[i]);
        CodeInjective(slots[i].value, cs[i]);
      }
    }
  }

  lemma ContainsSlots(cs: seq<Card>, n: nat, card: Card)
    ensures Some(card) in Slots(cs, n) <==> card in cs[..if n < |cs| then n else |cs|]
  {
    var slots := Slots(cs, n);
    var m := if n < |cs| then n else |cs|;
    var prefix := cs[..m];
    if card in prefix {
      var i :| 0 <= i < m && prefix[i] == card;
      assert slots[i] == Some(card);
    }
    if Some(card) in slots {
      var i :| 0 <= i < n && slots[i] == Some(card);
      assert i < m && prefix[i] == card;
    }
  }

  /** A collection decoded from codes contains exactly the first `n` cards. */
  lemma ContainsOfCodes(cs: seq<Card>, n: nat, card: Card)
    ensures Contains(FromStr(JoinCodes(cs), n).value, card) <==> card in cs[..if n < |cs| then n else |cs|]
  {
    FromStrOfCodes(cs, n);
    ContainsSlots(cs, n, card);
  }

  /** Tokens past the capacity are dropped. */
  lemma TruncatesExample()
    ensures FromStr("H1H2H3H4", 3).value.cards == [Some(H1), Some(H2), Some(H3)]
  {
    assert JoinCodes([H1, H2, H3, H4]) == "H1H2H3H4";
    FromStrOfCodes([H1, H2, H3, H4], 3);
  }

  lemma UpperExample()
    ensures ToUpper("hkx8t22t21") == "HKX8T22T21"
  {
    UpperOfHand("hkx8t22t21");
  }

  /** The same, character by character. */
  lemma UpperOfHand(s: string)
    requires s == "hkx8t22t21"
    ensures ToUpper(s) == "HKX8T22T21"
  {
    var u := ToUpper(s);
    assert u[0] == 'H' && u[1] == 'K' && u[2] == 'X' && u[3] == '8' && u[4] == 'T';
    assert u[5] == '2' && u[6] == '2' && u[7] == 'T' && u[8] == '2' && u[9] == '1';
  }

  lemma JoinExample()
    ensures JoinCodes([HK, X8, T22, T21]) == "HKX8T22T21"
  {
    var cs := [HK, X8, T22, T21];
    assert JoinCodes(cs[3..]) == "T21";
    assert JoinCodes(cs[2..]) == "T22T21";
    assert JoinCodes(cs[1..]) == "X8T22T21";
  }

  /** Lower-case codes run together are read as their cards, the rest of the
      hand left empty. */
  lemma LowerCaseExample()
    ensures FromStr("hkx8t22t21", 12).value.cards == Slots([HK, X8, T22, T21], 12)
  {
    FromStrIgnoresCase("hkx8t22t21", 12);
    UpperExample();
    JoinExample();
    FromStrOfCodes([HK, X8, T22, T21], 12);
  }

  lemma DecodedH1H2H3()
    ensures FromStr("H1H2H3", 3).value.cards == [Some(H1), Some(H2), Some(H3)]
  {
    assert JoinCodes([H1, H2, H3]) == "H1H2H3";
    FromStrOfCodes([H1, H2, H3], 3);
  }

  lemma DecodedH3H2H1()
    ensures FromStr("H3H2H1", 3).value.cards == [Some(H3), Some(H2), Some(H1)]
  {
    assert JoinCodes([H3, H2, H1]) == "H3H2H1";
    FromStrOfCodes([H3, H2, H1], 3);
  }

  lemma DecodedH1H2H4()
    ensures FromStr("H1H2H4", 3).value.cards == [Some(H1), Some(H2), Some(H4)]
  {
    assert JoinCodes([H1, H2, H4]) == "H1H2H4";
    FromStrOfCodes([H1, H2, H4], 3);
  }

  /** The same cards in another order are equal. */
  lemma ReorderedEqual()
    ensures Equal(FromStr("H1H2H3", 3).value, FromStr("H3H2H1", 3).value)
  {
    DecodedH1H2H3();
    DecodedH3H2H1();
    var a, b := FromStr("H1H2H3", 3).value, FromStr("H3H2H1", 3).value;
    assert multiset(a.cards) == multiset(b.cards);
    EqualOfPermutation(a, b);
  }

  /** Collections with a different card are unequal. */
  lemma OtherCardUnequal()
    ensures !Equal(FromStr("H1H2H3", 3).value, FromStr("H1H2H4", 3).value)
  {
    DecodedH1H2H3();
    DecodedH1H2H4();
    assert Contains(FromStr("H1H2H3", 3).value, H3);
    assert !Contains(FromStr("H1H2H4", 3).value, H3);
  }
}
