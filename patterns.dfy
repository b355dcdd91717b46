/** The five fixed patterns of src/model/game.rs (lines 15-43) as hand-written
    recognizers. All five carry the `(?i)` flag, so letters are compared after
    ASCII upper-casing; `(?x)` makes their layout whitespace insignificant.
    Alternatives are tried in the order the pattern lists them and greedy
    repetitions prefer one more iteration, which is the preference of the
    leftmost-first matcher the patterns run on. */
module Patterns {
  import opened Wrappers
  import opened Text
  import Cards
  import GameTypes

  /** `c` belongs to the character class listing the upper-case characters
      `cls`, under `(?i)`. */
  predicate In(c: char, cls: string)
  {
    Upper(c) in cls
  }

  const Digits: string := "0123456789"
  const NonZero: string := "123456789"

  // ---------------------------------------------------------------------
  // Card tokens: CARD_REGEX (line 15) and the two card sub-patterns of
  // CARDS_REGEX (lines 19-29).
  // ---------------------------------------------------------------------

  /** The whole of `t` is one card token of CARD_REGEX, which is also the
      sub-pattern of the talon, hand and trick fields:
      `[HK][1-4KDPB]|[PX](?:[7-9KDPB]|10)|T(?:2[0-2]|1[0-9]|[1-9])|\.` */
  predicate IsHandToken(t: string)
    ensures IsHandToken(t) ==> 1 <= |t| <= 3
  {
    || (|t| == 2 && In(t[0], "HK") && In(t[1], "1234KDPB"))
    || (|t| == 2 && In(t[0], "PX") && In(t[1], "789KDPB"))
    || (|t| == 3 && In(t[0], "PX") && t[1] == '1' && t[2] == '0')
    || (|t| == 3 && In(t[0], "T") && t[1] == '2' && In(t[2], "012"))
    || (|t| == 3 && In(t[0], "T") && t[1] == '1' && In(t[2], Digits))
    || (|t| == 2 && In(t[0], "T") && In(t[1], NonZero))
    || t == "."
  }

  /** The whole of `t` is one token of the won-tricks sub-pattern (lines 22,
      24, 26, 28): `[HK][1-4KDPB]|[PX](?:[7-9KDPB]|10)|T(?:2[0-2])|1[0-9]|[1-9]|\.`
      — only T20 to T22 are trumps here, and bare numbers 1 to 19 are tokens. */
  predicate IsWonToken(t: string)
    ensures IsWonToken(t) ==> 1 <= |t| <= 3 && (t[0] !in Digits ==> IsHandToken(t))
  {
    || (|t| == 2 && In(t[0], "HK") && In(t[1], "1234KDPB"))
    || (|t| == 2 && In(t[0], "PX") && In(t[1], "789KDPB"))
    || (|t| == 3 && In(t[0], "PX") && t[1] == '1' && t[2] == '0')
    || (|t| == 3 && In(t[0], "T") && t[1] == '2' && In(t[2], "012"))
    || (|t| == 2 && t[0] == '1' && In(t[1], Digits))
    || (|t| == 1 && In(t[0], NonZero))
    || t == "."
  }

  /** The length of the CARD_REGEX match that starts at the beginning of `s`,
      or 0 when no match starts there. Within the trump alternative
      `2[0-2]` and `1[0-9]` are preferred to `[1-9]`, so "T23" matches only
      its first two characters. */
  function CardMatchLen(s: string): (k: nat)
    ensures k <= 3 && k <= |s|
    ensures k > 0 ==> IsHandToken(s[..k])
  {
    if |s| >= 2 && In(s[0], "HK") && In(s[1], "1234KDPB") then 2
    else if |s| >= 2 && In(s[0], "PX") && In(s[1], "789KDPB") then 2
    else if |s| >= 3 && In(s[0], "PX") && s[1] == '1' && s[2] == '0' then 3
    else if |s| >= 3 && In(s[0], "T") && s[1] == '2' && In(s[2], "012") then 3
    else if |s| >= 3 && In(s[0], "T") && s[1] == '1' && In(s[2], Digits) then 3
    else if |s| >= 2 && In(s[0], "T") && In(s[1], NonZero) then 2
    else if |s| >= 1 && s[0] == '.' then 1
    else 0
  }

  /** `CARD_REGEX.find_iter(s)`: the matched substrings, left to right. A
      position where no match starts is skipped; after a match the search
      resumes where it ended. */
  function CardMatches(s: string): (ms: seq<string>)
    ensures forall m <- ms :: IsHandToken(m)
    decreases |s|
  {
    if s == [] then []
    else
      var k := CardMatchLen(s);
      if k == 0 then CardMatches(s[1..]) else [s[..k]] + CardMatches(s[k..])
  }

  /** Every string CARD_REGEX matches is a code `Card::from_str` accepts, and
      conversely: the pattern and the code table describe the same tokens. */
  lemma {:induction false} HandTokenIffCode(t: string)
    ensures IsHandToken(t) <==> Cards.FromStr(t).Ok?
  {
    if |t| == 1 {
      OneCharTokenIffCode(t);
    } else if |t| == 2 {
      TwoCharTokenIffCode(t);
    } else if |t| == 3 {
      ThreeCharTokenIffCode(t);
    }
  }

  /** The same by the length of the token. */
  lemma OneCharTokenIffCode(t: string)
    requires |t| == 1
    ensures IsHandToken(t) <==> Cards.FromStr(t).Ok?
  {
    var u := ToUpper(t);
    assert u == [u[0]];
  }

  lemma TwoCharTokenIffCode(t: string)
    requires |t| == 2
    ensures IsHandToken(t) <==> Cards.FromStr(t).Ok?
  {
    var u := ToUpper(t);
    assert u == [u[0], u[1]];
  }

  lemma ThreeCharTokenIffCode(t: string)
    requires |t| == 3
    ensures IsHandToken(t) <==> Cards.FromStr(t).Ok?
  {
    var u := ToUpper(t);
    assert u == [u[0], u[1], u[2]];
  }

  /** Under `(?i)` a card token starts at the same place, with the same
      length, whatever the case of its letters. */
  lemma CardMatchLenIgnoresCase(s: string)
    ensures CardMatchLen(ToUpper(s)) == CardMatchLen(s)
  {
  }

  /** Upper-casing commutes with taking a prefix or a suffix. */
  lemma ToUpperSlices(s: string, k: nat)
    requires k <= |s|
    ensures ToUpper(s)[..k] == ToUpper(s[..k]) && ToUpper(s)[k..] == ToUpper(s[k..])
  {
    assert s == s[..k] + s[k..];
    ToUpperAppend(s[..k], s[k..]);
  }

  /** `us` is `ms` with every string upper-cased. */
  predicate UpperEach(us: seq<string>, ms: seq<string>)
  {
    |us| == |ms| && forall i :: 0 <= i < |ms| ==> us[i] == ToUpper(ms[i])
  }

  /** Upper-casing string by string, split into the first string and the
      others. */
  lemma UpperEachTail(us: seq<string>, ms: seq<string>)
    requires |ms| >= 1 && UpperEach(us, ms)
    ensures us[0] == ToUpper(ms[0]) && UpperEach(us[1..], ms[1..])
  {
    assert forall i :: 0 <= i < |ms| - 1 ==> us[1..][i] == us[i + 1] && ms[1..][i] == ms[i + 1];
  }

  /** Upper-casing string by string extends to one more string in front. */
  lemma UpperEachCons(m: string, ms: seq<string>, us: seq<string>)
    requires UpperEach(us, ms)
    ensures UpperEach([ToUpper(m)] + us, [m] + ms)
  {
    assert forall i :: 1 <= i < |ms| + 1 ==> ([m] + ms)[i] == ms[i - 1];
  }

  /** The card pattern finds the same tokens in the upper-case form of a
      string, each in upper case. */
  lemma {:induction false} CardMatchesIgnoreCase(s: string)
    ensures |CardMatches(ToUpper(s))| == |CardMatches(s)|
    ensures forall i :: 0 <= i < |CardMatches(s)| ==> CardMatches(ToUpper(s))[i] == ToUpper(CardMatches(s)[i])
    decreases |s|
  {
    if s != [] {
      var u := ToUpper(s);
      CardMatchLenIgnoresCase(s);
      var k := CardMatchLen(s);
      if k == 0 {
        ToUpperSlices(s, 1);
        CardMatchesIgnoreCase(s[1..]);
      } else {
        ToUpperSlices(s, k);
        CardMatchesIgnoreCase(s[k..]);
        UpperEachCons(s[..k], CardMatches(s[k..]), CardMatches(u[k..]));
      }
    }
  }

  /** Characters that start no token are skipped: the test string of the
      tokenizer has no match at all. */
  lemma SkipsNonTokens()
    ensures CardMatches("asdaP07sd") == []
  {
    var s := "asdaP07sd";
    assert CardMatchLen(s[8..]) == 0;
    assert CardMatches(s[8..]) == [];
    assert CardMatchLen(s[7..]) == 0;
    assert CardMatches(s[7..]) == [];
    assert CardMatchLen(s[6..]) == 0;
    assert CardMatches(s[6..]) == [];
    assert CardMatchLen(s[5..]) == 0;
    assert CardMatches(s[5..]) == [];
    assert CardMatchLen(s[4..]) == 0;
    assert CardMatches(s[4..]) == [];
    assert CardMatchLen(s[3..]) == 0;
    assert CardMatches(s[3..]) == [];
    assert CardMatchLen(s[2..]) == 0;
    assert CardMatches(s[2..]) == [];
    assert CardMatchLen(s[1..]) == 0;
    assert CardMatches(s[1..]) == [];
    assert CardMatchLen(s) == 0;
  }

  // ---------------------------------------------------------------------
  // The cards group: CARDS_REGEX (lines 18-29).
  // ---------------------------------------------------------------------

  /** The two token languages of the cards group. */
  datatype Alphabet = Hand | Won

  predicate IsToken(a: Alphabet, t: string)
  {
    match a
    case Hand => IsHandToken(t)
    case Won => IsWonToken(t)
  }

  /** `s` matches `(?:token){lo,hi}` as a whole: it splits into between `lo`
      and `hi` tokens of alphabet `a`. Tokens have one to three characters. */
  predicate Rep(s: string, a: Alphabet, lo: nat, hi: nat)
    decreases |s|
  {
    if s == [] then lo == 0
    else
      var lo' := if lo == 0 then 0 else lo - 1;
      && hi > 0
      && (|| (IsToken(a, s[..1]) && Rep(s[1..], a, lo', hi - 1))
          || (|s| >= 2 && IsToken(a, s[..2]) && Rep(s[2..], a, lo', hi - 1))
          || (|s| >= 3 && IsToken(a, s[..3]) && Rep(s[3..], a, lo', hi - 1)))
  }

  /** The concatenation of a list of strings. */
  function Concat(ts: seq<string>): (s: string)
    ensures |ts| == 1 ==> s == ts[0]
  {
    if ts == [] then [] else ts[0] + Concat(ts[1..])
  }

  /** Any between `lo` and `hi` tokens, written one after the other, match
      `(?:token){lo,hi}`. */
  lemma {:induction false} RepOfTokens(ts: seq<string>, a: Alphabet, lo: nat, hi: nat)
    requires forall t <- ts :: IsToken(a, t)
    requires lo <= |ts| <= hi
    ensures Rep(Concat(ts), a, lo, hi)
  {
    if ts != [] {
      var t := ts[0];
      assert IsToken(a, t);
      var lo' := if lo == 0 then 0 else lo - 1;
      RepOfTokens(ts[1..], a, lo', hi - 1);
      var s := Concat(ts);
      assert s == t + Concat(ts[1..]);
      assert s[..|t|] == t && s[|t|..] == Concat(ts[1..]);
    }
  }

  /** The two separators of the cards group, neither of which occurs in a
      card token. */
  predicate IsSeparator(c: char)
  {
    c == '/' || c == '#'
  }

  predicate NoSeparator(p: string)
  {
    forall i :: 0 <= i < |p| ==> !IsSeparator(p[i])
  }

  /** The pieces of `s` between separators, left to right. */
  function Pieces(s: string): (ps: seq<string>)
    ensures |ps| >= 1
    ensures forall i :: 0 <= i < |ps| ==> NoSeparator(ps[i])
  {
    if s == [] then [[]]
    else
      var rest := Pieces(s[1..]);
      if IsSeparator(s[0]) then [[]] + rest else [[s[0]] + rest[0]] + rest[1..]
  }

  /** The separators of `s`, left to right. */
  function Separators(s: string): (seps: string)
    ensures |seps| == |Pieces(s)| - 1
    ensures forall i :: 0 <= i < |seps| ==> IsSeparator(seps[i])
  {
    if s == [] then []
    else if IsSeparator(s[0]) then [s[0]] + Separators(s[1..])
    else Separators(s[1..])
  }

  /** Pieces written with separators between them. */
  function Interleave(ps: seq<string>, seps: string): string
    requires |ps| == |seps| + 1
  {
    if seps == [] then ps[0] else ps[0] + [seps[0]] + Interleave(ps[1..], seps[1..])
  }

  /** Splitting at the separators loses nothing. */
  lemma {:induction false} SplitRebuild(s: string)
    ensures Interleave(Pieces(s), Separators(s)) == s
  {
    if s != [] {
      SplitRebuild(s[1..]);
      var ps, seps := Pieces(s[1..]), Separators(s[1..]);
      if !IsSeparator(s[0]) && seps != [] {
        assert Interleave([[s[0]] + ps[0]] + ps[1..], seps)
            == [s[0]] + (ps[0] + [seps[0]] + Interleave(ps[1..], seps[1..]));
      }
    }
  }

  /** Separator-free pieces are recovered from their interleaving. */
  lemma {:induction false} SplitOfInterleave(ps: seq<string>, seps: string)
    requires |ps| == |seps| + 1
    requires forall i :: 0 <= i < |ps| ==> NoSeparator(ps[i])
    requires forall i :: 0 <= i < |seps| ==> IsSeparator(seps[i])
    ensures Pieces(Interleave(ps, seps)) == ps
    ensures Separators(Interleave(ps, seps)) == seps
  {
    if seps == [] {
      PiecesOfWord(ps[0]);
    } else {
      SplitOfInterleave(ps[1..], seps[1..]);
      PiecesBeforeSeparator(ps[0], seps[0], Interleave(ps[1..], seps[1..]));
      assert [ps[0]] + ps[1..] == ps;
    }
  }

  lemma {:induction false} PiecesOfWord(p: string)
    requires NoSeparator(p)
    ensures Pieces(p) == [p] && Separators(p) == []
  {
    if p != [] {
      PiecesOfWord(p[1..]);
      assert [p[0]] + p[1..] == p;
    }
  }

  lemma {:induction false} PiecesBeforeSeparator(p: string, c: char, rest: string)
    requires NoSeparator(p) && IsSeparator(c)
    ensures Pieces(p + [c] + rest) == [p] + Pieces(rest)
    ensures Separators(p + [c] + rest) == [c] + Separators(rest)
  {
    var s := p + [c] + rest;
    if p == [] {
      assert s[1..] == rest;
    } else {
      assert s[1..] == p[1..] + [c] + rest;
      PiecesBeforeSeparator(p[1..], c, rest);
      assert [p[0]] + p[1..] == p;
    }
  }

  /** The named captures of CARDS_REGEX: `talon0`, `talon1`, `player<i>hand`,
      `player<i>stiche` for i = 0..3, and `stich`. */
  datatype CardsCapture = CardsCapture(
    talon0: string, talon1: string,
    hands: seq<string>, stiche: seq<string>,
    stich: string)

  /** The separators CARDS_REGEX requires, in order. */
  const CardsLayout: string := "/#/#/#/#/#"

  /** The captures laid out in the order of the pattern, with its separators. */
  function CardsFields(c: CardsCapture): seq<string>
    requires |c.hands| == 4 && |c.stiche| == 4
  {
    [c.talon0, c.talon1,
     c.hands[0], c.stiche[0], c.hands[1], c.stiche[1],
     c.hands[2], c.stiche[2], c.hands[3], c.stiche[3],
     c.stich]
  }

  /** Each capture matches its repetition: 3 tokens per talon half, 0 to 12
      per hand, 0 to 54 won-tricks tokens per player, 0 to 4 in the trick. */
  predicate CardsShape(c: CardsCapture)
  {
    && |c.hands| == 4 && |c.stiche| == 4
    && Rep(c.talon0, Hand, 3, 3) && Rep(c.talon1, Hand, 3, 3)
    && (forall i :: 0 <= i < 4 ==> Rep(c.hands[i], Hand, 0, 12))
    && (forall i :: 0 <= i < 4 ==> Rep(c.stiche[i], Won, 0, 54))
    && Rep(c.stich, Hand, 0, 4)
  }

  /** The captures, read off the eleven pieces in the order of the pattern. */
  function CaptureOf(ps: seq<string>): (c: CardsCapture)
    requires |ps| == 11
    ensures |c.hands| == 4 && |c.stiche| == 4 && CardsFields(c) == ps
  {
    CardsCapture(ps[0], ps[1], [ps[2], ps[4], ps[6], ps[8]],
                 [ps[3], ps[5], ps[7], ps[9]], ps[10])
  }

  lemma CaptureOfFields(c: CardsCapture)
    requires |c.hands| == 4 && |c.stiche| == 4
    ensures CaptureOf(CardsFields(c)) == c
  {
    assert c.hands == [c.hands[0], c.hands[1], c.hands[2], c.hands[3]];
    assert c.stiche == [c.stiche[0], c.stiche[1], c.stiche[2], c.stiche[3]];
  }

  /** `CARDS_REGEX.captures(s)`. The pattern is anchored at both ends and no
      token contains a separator, so a match has to put the ten separators
      of the pattern exactly at the separators of `s`: the captures are the
      pieces between them. */
  function CardsGroup(s: string): (r: Option<CardsCapture>)
    ensures r.Some? ==> CardsShape(r.value)
  {
    if Separators(s) != CardsLayout then None
    else
      var c := CaptureOf(Pieces(s));
      if CardsShape(c) then Some(c) else None
  }

  /** A match gives back a well-shaped capture from which `s` is rebuilt. */
  lemma CardsGroupSound(s: string)
    requires CardsGroup(s).Some?
    ensures CardsShape(CardsGroup(s).value)
    ensures Interleave(CardsFields(CardsGroup(s).value), CardsLayout) == s
  {
    SplitRebuild(s);
  }

  /** Every well-shaped capture is matched, and is what the match gives back:
      with the previous lemma, CardsGroup accepts exactly the language of
      CARDS_REGEX. */
  lemma CardsGroupComplete(c: CardsCapture)
    requires CardsShape(c)
    requires forall i :: 0 <= i < |CardsFields(c)| ==> NoSeparator(CardsFields(c)[i])
    ensures CardsGroup(Interleave(CardsFields(c), CardsLayout)) == Some(c)
  {
    SplitOfInterleave(CardsFields(c), CardsLayout);
    CaptureOfFields(c);
  }

  // ---------------------------------------------------------------------
  // The contract group: GAME_TYPE_REGEX (lines 32-33) and GAME_REGEX
  // (lines 37-38).
  // ---------------------------------------------------------------------

  /** `s` starts with `w` (an upper-case word), under `(?i)`. */
  predicate StartsWith(s: string, w: string)
  {
    |s| >= |w| && ToUpper(s[..|w|]) == w
  }

  /** One alternative of the contract sub-pattern: a fixed word, a fixed
      word followed by `[1-3]`, or a one-character class. */
  datatype Alternative = Word(w: string) | WordDigit(w: string) | OneOf(cls: string)

  function Width(a: Alternative): nat
  {
    match a
    case Word(w) => |w|
    case WordDigit(w) => |w| + 1
    case OneOf(_) => 1
  }

  /** Alternative `a` matches at the start of `s`. */
  predicate MatchesAt(a: Alternative, s: string)
  {
    && |s| >= Width(a)
    && match a
       case Word(w) => ToUpper(s[..|w|]) == w
       case WordDigit(w) => ToUpper(s[..|w|]) == w && In(s[|w|], "123")
       case OneOf(cls) => In(s[0], cls)
  }

  /** `SPD|SR|BR|BO|PD|SD|PO[1-3]|PB[1-3]|P[1-3]|[TRSBD]`, in the pattern's
      order of preference. */
  const Contracts: seq<Alternative> :=
    [Word("SPD"), Word("SR"), Word("BR"), Word("BO"), Word("PD"), Word("SD"),
     WordDigit("PO"), WordDigit("PB"), WordDigit("P"), OneOf("TRSBD")]

  /** The whole of `t` is matched by one of the alternatives from index `j` on. */
  predicate MatchesWhole(t: string, j: nat)
    decreases |Contracts| - j
  {
    j < |Contracts| && ((Width(Contracts[j]) == |t| && MatchesAt(Contracts[j], t)) || MatchesWhole(t, j + 1))
  }

  /** The whole of `t` is one contract of the sub-pattern. */
  predicate IsContractToken(t: string)
  {
    MatchesWhole(t, 0)
  }

  /** The lengths of the alternatives from index `j` on that match at the
      start of `s`, in order of preference. */
  function Candidates(s: string, j: nat): (ks: seq<nat>)
    ensures forall i :: 0 <= i < |ks| ==> 1 <= ks[i] <= |s| && MatchesWhole(s[..ks[i]], j)
    decreases |Contracts| - j
  {
    if j >= |Contracts| then []
    else
      var rest := Candidates(s, j + 1);
      var a := Contracts[j];
      if MatchesAt(a, s) then
        [Width(a)] + rest
      else rest
  }

  /** The lengths of the contract alternatives that match at the start of
      `s`, in the pattern's order of preference. */
  function ContractMatches(s: string): (ks: seq<nat>)
    ensures forall i :: 0 <= i < |ks| ==> 1 <= ks[i] <= |s| && IsContractToken(s[..ks[i]])
  {
    Candidates(s, 0)
  }

  /** Every contract the pattern matches is a code `GameType::from_str`
      accepts. */
  lemma {:induction false} ContractTokenDecodes(t: string)
    requires IsContractToken(t)
    ensures GameTypes.FromStr(t).Ok?
  {
    WholeDecodes(t, 0);
  }

  lemma {:induction false} WholeDecodes(t: string, j: nat)
    requires MatchesWhole(t, j)
    ensures GameTypes.FromStr(t).Ok?
    decreases |Contracts| - j
  {
    if Width(Contracts[j]) == |t| && MatchesAt(Contracts[j], t) {
      AlternativeDecodes(t, j);
    } else {
      WholeDecodes(t, j + 1);
    }
  }

  /** A prefix that upper-cases to `w` has the letters of `w`, up to case. */
  lemma WordLetters(t: string, w: string)
    requires |t| >= |w| && ToUpper(t[..|w|]) == w
    ensures forall i :: 0 <= i < |w| ==> Upper(t[i]) == w[i]
  {
    forall i | 0 <= i < |w|
      ensures Upper(t[i]) == w[i]
    {
      assert t[..|w|][i] == t[i];
    }
  }

  lemma AlternativeDecodes(t: string, j: nat)
    requires j < |Contracts| && Width(Contracts[j]) == |t| && MatchesAt(Contracts[j], t)
    ensures GameTypes.FromStr(t).Ok?
  {
    var a := Contracts[j];
    if !a.OneOf? {
      WordLetters(t, a.w);
    }
  }

  /** A whole match by alternative `k` is a whole match from any earlier
      alternative on. */
  lemma {:induction false} MatchesWholeFrom(t: string, j: nat, k: nat)
    requires j <= k < |Contracts| && Width(Contracts[k]) == |t| && MatchesAt(Contracts[k], t)
    ensures MatchesWhole(t, j)
    decreases k - j
  {
    if j < k {
      MatchesWholeFrom(t, j + 1, k);
    }
  }

  /** A string that starts with the upper-case word `w` starts with it
      under `(?i)`. */
  lemma WordAt(t: string, w: string)
    requires |t| >= |w| && t[..|w|] == w
    requires forall i :: 0 <= i < |w| ==> !('a' <= w[i] <= 'z')
    ensures ToUpper(t[..|w|]) == w
  {
    ToUpperOfUpper(w);
  }

  /** The word of one of the first six alternatives is a contract. */
  lemma WordIsContract(k: nat, t: string)
    requires k < 6 && Contracts[k].Word? && t == Contracts[k].w
    requires forall i :: 0 <= i < |t| ==> !('a' <= t[i] <= 'z')
    ensures MatchesWhole(t, 0)
  {
    assert t[..|t|] == t;
    WordAt(t, t);
    MatchesWholeFrom(t, 0, k);
  }

  /** A word of the three word-and-digit alternatives, followed by a digit
      from 1 to 3, is a contract. */
  lemma WordDigitIsContract(k: nat, t: string)
    requires 6 <= k < 9 && Contracts[k].WordDigit? && |t| == |Contracts[k].w| + 1
    requires t[..|t| - 1] == Contracts[k].w && t[|t| - 1] in "123"
    requires forall i :: 0 <= i < |t| - 1 ==> !('a' <= t[i] <= 'z')
    ensures MatchesWhole(t, 0)
  {
    WordAt(t, Contracts[k].w);
    MatchesWholeFrom(t, 0, k);
  }

  /** Conversely, every game type's code is a contract of the pattern. */
  lemma CodeIsContractToken(g: GameTypes.GameType)
    ensures IsContractToken(GameTypes.Code(g))
  {
    if g.SPD? || g.SR? || g.BR? || g.BO? || g.PD? || g.SD? {
      WordCodeIsContract(g);
    } else if g.T? || g.R? || g.S? || g.B? || g.D? {
      MatchesWholeFrom(GameTypes.Code(g), 0, 9);
    } else {
      DigitCodeIsContract(g);
    }
  }

  /** The same for the codes that are whole words and for the codes that
      end in a digit. */
  lemma WordCodeIsContract(g: GameTypes.GameType)
    requires g.SPD? || g.SR? || g.BR? || g.BO? || g.PD? || g.SD?
    ensures MatchesWhole(GameTypes.Code(g), 0)
  {
    var t := GameTypes.Code(g);
    match g
    case SPD => WordIsContract(0, t);
    case SR => WordIsContract(1, t);
    case BR => WordIsContract(2, t);
    case BO => WordIsContract(3, t);
    case PD => WordIsContract(4, t);
    case SD => WordIsContract(5, t);
  }

  lemma DigitCodeIsContract(g: GameTypes.GameType)
    requires g.PO1? || g.PO2? || g.PO3? || g.PB1? || g.PB2? || g.PB3? || g.P1? || g.P2? || g.P3?
    ensures MatchesWhole(GameTypes.Code(g), 0)
  {
    var t := GameTypes.Code(g);
    match g
    case PO1 | PO2 | PO3 => WordDigitIsContract(6, t);
    case PB1 | PB2 | PB3 => WordDigitIsContract(7, t);
    case P1 | P2 | P3 => WordDigitIsContract(8, t);
  }

  /** The contract pattern ignores ASCII case. */
  lemma {:induction false} WholeIgnoresCase(t: string, j: nat)
    ensures MatchesWhole(t, j) == MatchesWhole(ToUpper(t), j)
    decreases |Contracts| - j
  {
    if j < |Contracts| {
      WholeIgnoresCase(t, j + 1);
      var a, u := Contracts[j], ToUpper(t);
      if |t| >= Width(a) && !a.OneOf? {
        assert u[..|a.w|] == ToUpper(t[..|a.w|]);
        ToUpperIdempotent(t[..|a.w|]);
      }
    }
  }

  /** The contract pattern and the code table of `GameType::from_str`
      describe the same tokens. */
  lemma ContractTokenIffCode(t: string)
    ensures IsContractToken(t) <==> GameTypes.FromStr(t).Ok?
  {
    if IsContractToken(t) {
      ContractTokenDecodes(t);
    } else if GameTypes.FromStr(t).Ok? {
      var g := GameTypes.FromStr(t).value;
      GameTypes.DecodeSound(t, g);
      CodeIsContractToken(g);
      WholeIgnoresCase(t, 0);
    }
  }

  /** One capture of GAME_TYPE_REGEX: the `game` and `player` groups. */
  datatype Pair = Pair(game: string, player: char)

  predicate IsPlayerDigit(c: char)
  {
    '1' <= c <= '4'
  }

  /** The first of the candidate contract lengths `ks` that is followed by a
      player digit `[1-4]`. */
  function PairAt(s: string, ks: seq<nat>): (r: Option<Pair>)
    requires forall i :: 0 <= i < |ks| ==> 1 <= ks[i] <= |s| && IsContractToken(s[..ks[i]])
    ensures r.Some? ==> IsContractToken(r.value.game) && IsPlayerDigit(r.value.player)
    ensures r.Some? ==> r.value.game + [r.value.player] <= s
  {
    if ks == [] then None
    else
      var k := ks[0];
      if k < |s| && IsPlayerDigit(s[k]) then Some(Pair(s[..k], s[k]))
      else PairAt(s, ks[1..])
  }

  /** `GAME_TYPE_REGEX.captures_iter(s)`: the contract/player pairs found
      scanning `s` left to right. */
  function GamePairs(s: string): (ps: seq<Pair>)
    ensures ValidPairs(ps)
    decreases |s|
  {
    if s == [] then []
    else
      match PairAt(s, ContractMatches(s))
      case None => GamePairs(s[1..])
      case Some(p) => [p] + GamePairs(s[|p.game| + 1..])
  }

  /** The named captures of GAME_REGEX. */
  datatype GameCapture = GameCapture(gameAndPlayer: string, king: string, teammate: string, talon: string)

  /** The shape of the groups after `gameAndPlayer`: `king` is `[HKPX]K|-`,
      `teammate` is `[1-4-]` and `talon` is `12|[12-]`. */
  predicate TailShape(c: GameCapture)
  {
    && (c.king == "-" || (|c.king| == 2 && In(c.king[0], "HKPX") && In(c.king[1], "K")))
    && |c.teammate| == 1 && (IsPlayerDigit(c.teammate[0]) || c.teammate[0] == '-')
    && (c.talon == "12" || (|c.talon| == 1 && c.talon[0] in "12-"))
  }

  /** The rest of GAME_REGEX from position `i` to the end of `s`:
      `(?<king>[HKPX]K|\-)(?<teammate>[1-4-])(?<talon>12|[12-])$`. The two
      king alternatives and the two talon alternatives cannot both match
      before the end anchor, so the first that does is the match. */
  function GameTail(s: string, i: nat): (r: Option<GameCapture>)
    requires i <= |s|
    ensures r.Some? ==> TailShape(r.value) && r.value.gameAndPlayer == s[..i]
    ensures r.Some? ==> r.value.gameAndPlayer + r.value.king + r.value.teammate + r.value.talon == s
  {
    var t := s[i..];
    var kl := if |t| >= 2 && In(t[0], "HKPX") && In(t[1], "K") then 2
              else if |t| >= 1 && t[0] == '-' then 1
              else 0;
    if kl == 0 || |t| <= kl || !(IsPlayerDigit(t[kl]) || t[kl] == '-') then None
    else
      var talon := t[kl + 1..];
      if talon == "12" || (|talon| == 1 && talon[0] in "12-") then
        assert s == s[..i] + t[..kl] + [t[kl]] + talon;
        Some(GameCapture(s[..i], t[..kl], [t[kl]], talon))
      else None
  }

  /** GAME_REGEX after `n` pairs, from position `i`: the greedy `{1,4}`
      first tries one more pair (while fewer than four have been read), and
      falls back on ending the pairs here once at least one has been read. */
  function GameFrom(s: string, i: nat, n: nat): (r: Option<GameCapture>)
    requires i <= |s|
    ensures r.Some? ==> TailShape(r.value) && i <= |r.value.gameAndPlayer|
    ensures r.Some? ==> r.value.gameAndPlayer + r.value.king + r.value.teammate + r.value.talon == s
    decreases |s| - i, 1, 0
  {
    var more := if n < 4 then TryContracts(s, i, n, ContractMatches(s[i..])) else None;
    if more.Some? then more
    else if n >= 1 then GameTail(s, i)
    else None
  }

  /** One more pair at position `i`: the candidate contract lengths `ks` are
      tried in order, each followed by a player digit and the rest of the
      pattern. */
  function TryContracts(s: string, i: nat, n: nat, ks: seq<nat>): (r: Option<GameCapture>)
    requires i <= |s|
    requires forall j :: 0 <= j < |ks| ==> 1 <= ks[j] <= |s| - i
    ensures r.Some? ==> TailShape(r.value) && i <= |r.value.gameAndPlayer|
    ensures r.Some? ==> r.value.gameAndPlayer + r.value.king + r.value.teammate + r.value.talon == s
    decreases |s| - i, 0, |ks|
  {
    if ks == [] then None
    else
      var r := Attempt(s, i, n, ks[0]);
      if r.Some? then r else TryContracts(s, i, n, ks[1..])
  }

  /** The candidate contract of length `k` at position `i`, followed by a
      player digit and the rest of the pattern. */
  function Attempt(s: string, i: nat, n: nat, k: nat): (r: Option<GameCapture>)
    requires i <= |s|
    ensures r.Some? ==> TailShape(r.value) && i <= |r.value.gameAndPlayer|
    ensures r.Some? ==> r.value.gameAndPlayer + r.value.king + r.value.teammate + r.value.talon == s
    decreases |s| - i, 0, 0
  {
    if DigitAfter(s, i, k) then GameFrom(s, i + k + 1, n + 1) else None
  }

  /** A player digit follows the `k` characters from position `i`. */
  predicate DigitAfter(s: string, i: nat, k: nat)
  {
    i + k < |s| && IsPlayerDigit(s[i + k])
  }

  /** `GAME_REGEX.captures(s)`, anchored at the start of `s`. */
  function GameGroup(s: string): (r: Option<GameCapture>)
    ensures r.Some? ==> TailShape(r.value)
    ensures r.Some? ==> r.value.gameAndPlayer + r.value.king + r.value.teammate + r.value.talon == s
  {
    GameFrom(s, 0, 0)
  }

  /** No contract alternative matches before a character that starts none of
      them. */
  lemma {:induction false} NoCandidates(s: string, j: nat)
    requires s == [] || Upper(s[0]) !in "SBPTRD"
    ensures Candidates(s, j) == []
    decreases |Contracts| - j
  {
    if j < |Contracts| {
      NoCandidates(s, j + 1);
      var a := Contracts[j];
      if s != [] && Width(a) <= |s| && !a.OneOf? {
        assert ToUpper(s[..|a.w|])[0] == Upper(s[0]);
      }
    }
  }

  /** Before an `R` only the last alternative, `[TRSBD]`, matches. */
  lemma {:induction false} CandidatesOfR(s: string, j: nat)
    requires |s| >= 1 && s[0] == 'R'
    ensures Candidates(s, j) == if j < |Contracts| then [1] else []
    decreases |Contracts| - j
  {
    if j < |Contracts| {
      CandidatesOfR(s, j + 1);
      var a := Contracts[j];
      if Width(a) <= |s| && !a.OneOf? {
        assert ToUpper(s[..|a.w|])[0] == 'R';
      }
    }
  }

  lemma TailExample()
    ensures GameTail("R1XK-1", 2) == Some(GameCapture("R1", "XK", "-", "1"))
  {
    var s := "R1XK-1";
    var t := s[2..];
    assert t == "XK-1";
    assert t[3..] == "1";
    assert s[..2] == "R1" && t[..2] == "XK" && [t[2]] == "-";
  }

  /** After the pair `R1` no contract follows, so the pairs end there. */
  lemma AfterFirstPair()
    ensures GameFrom("R1XK-1", 2, 1) == Some(GameCapture("R1", "XK", "-", "1"))
  {
    NoCandidates("R1XK-1"[2..], 0);
    TailExample();
  }

  /** The first pair `R1` is taken, and the rest of the pattern matches. */
  lemma FirstPair()
    ensures TryContracts("R1XK-1", 0, 0, [1]) == Some(GameCapture("R1", "XK", "-", "1"))
  {
    AfterFirstPair();
  }

  /** The contract group of the notation's example line: player 1 plays `R`,
      calls the king of diamonds, names no teammate and takes talon half 1. */
  lemma GameGroupExample()
    ensures GameGroup("R1XK-1") == Some(GameCapture("R1", "XK", "-", "1"))
  {
    var s := "R1XK-1";
    FirstPair();
    CandidatesOfR(s, 0);
    assert s[0..] == s;
  }

  lemma GamePairsExample()
    ensures GamePairs("R1") == [Pair("R", '1')]
  {
    var s := "R1";
    CandidatesOfR(s, 0);
    assert s[..1] == "R";
    assert PairAt(s, [1]) == Some(Pair("R", '1'));
    assert s[2..] == [];
  }

  // The contract group round trip: pairs written one after another are
  // found back by GAME_TYPE_REGEX, and GAME_REGEX matches exactly the lines
  // made of one to four pairs and a well-shaped tail.

  /** A contract token followed by a player digit: one `game`/`player`
      capture of GAME_TYPE_REGEX. */
  predicate ValidPair(p: Pair)
  {
    IsContractToken(p.game) && IsPlayerDigit(p.player)
  }

  /** Every pair of `ps` is a contract token followed by a player digit. */
  predicate ValidPairs(ps: seq<Pair>)
  {
    forall j :: 0 <= j < |ps| ==> IsContractToken(ps[j].game) && IsPlayerDigit(ps[j].player)
  }

  /** ValidPairs, stated pair by pair from the front, for the inductions
      below. */
  predicate AllValid(ps: seq<Pair>)
  {
    ps == [] || (ValidPair(ps[0]) && AllValid(ps[1..]))
  }

  lemma {:induction false} AllValidOf(ps: seq<Pair>)
    requires ValidPairs(ps)
    ensures AllValid(ps)
    decreases |ps|
  {
    if ps != [] {
      assert ValidPair(ps[0]);
      AllValidOf(ps[1..]);
    }
  }

  lemma {:induction false} ValidOfAll(ps: seq<Pair>)
    requires AllValid(ps)
    ensures ValidPairs(ps)
    decreases |ps|
  {
    if ps != [] {
      ValidOfAll(ps[1..]);
      assert forall j :: 1 <= j < |ps| ==> ps[j] == ps[1..][j - 1];
    }
  }

  /** Pairs written one after another, as the `gameAndPlayer` group holds
      them. */
  function JoinPairs(ps: seq<Pair>): (s: string)
    ensures |s| >= |ps|
    ensures ps == [] <==> s == []
  {
    if ps == [] then [] else ps[0].game + [ps[0].player] + JoinPairs(ps[1..])
  }

  /** Alternative `a` matches at the start of `s` and is followed by a
      player digit. */
  predicate PairsAt(a: Alternative, s: string)
  {
    MatchesAt(a, s) && Width(a) < |s| && IsPlayerDigit(s[Width(a)])
  }

  /** The words of the contract alternatives are non-empty and made of
      upper-case letters, and none of the fixed words is the word before a
      digit of another alternative. */
  lemma ContractWords(j: nat)
    requires j < |Contracts|
    ensures Width(Contracts[j]) >= 1
    ensures !Contracts[j].OneOf? ==> |Contracts[j].w| >= 1 && forall m :: 0 <= m < |Contracts[j].w| ==> 'A' <= Contracts[j].w[m] <= 'Z'
    ensures Contracts[j].Word? ==> Contracts[j].w !in ["PO", "PB", "P"]
    ensures Contracts[j].WordDigit? ==> Contracts[j].w in ["PO", "PB", "P"]
    ensures Contracts[j].OneOf? ==> Contracts[j].cls == "TRSBD"
  {
  }

  /** A character matched by an upper-case letter of a word is no digit. */
  lemma LetterNoDigit(s: string, w: string, i: nat)
    requires |s| >= |w| && ToUpper(s[..|w|]) == w && i < |w|
    requires forall m :: 0 <= m < |w| ==> 'A' <= w[m] <= 'Z'
    ensures !('0' <= s[i] <= '9')
  {
    assert ToUpper(s[..|w|])[i] == Upper(s[i]);
  }

  /** Of two alternatives followed by a player digit, the narrower is as
      wide as the other. */
  lemma NarrowerPairs(s: string, i: nat, j: nat)
    requires i < |Contracts| && j < |Contracts|
    requires PairsAt(Contracts[i], s) && PairsAt(Contracts[j], s)
    requires Width(Contracts[i]) <= Width(Contracts[j])
    ensures Width(Contracts[i]) == Width(Contracts[j])
  {
    var a, b := Contracts[i], Contracts[j];
    ContractWords(i);
    ContractWords(j);
    if !b.OneOf? {
      WordNoDigits(s, b.w);
    }
  }

  /** No character matched by the word of an alternative is a digit. */
  lemma WordNoDigits(s: string, w: string)
    requires |s| >= |w| && ToUpper(s[..|w|]) == w
    requires forall m :: 0 <= m < |w| ==> 'A' <= w[m] <= 'Z'
    ensures forall m :: 0 <= m < |w| ==> !('0' <= s[m] <= '9')
  {
    forall m | 0 <= m < |w|
      ensures !('0' <= s[m] <= '9')
    {
      LetterNoDigit(s, w, m);
    }
  }

  /** At any position, every alternative followed by a player digit has the
      same width: GAME_TYPE_REGEX can read a pair in one way only. */
  lemma PairWidthUnique(s: string, i: nat, j: nat)
    requires i < |Contracts| && j < |Contracts|
    requires PairsAt(Contracts[i], s) && PairsAt(Contracts[j], s)
    ensures Width(Contracts[i]) == Width(Contracts[j])
  {
    if Width(Contracts[i]) <= Width(Contracts[j]) {
      NarrowerPairs(s, i, j);
    } else {
      NarrowerPairs(s, j, i);
    }
  }

  /** The alternative that matches the whole of a contract token. */
  lemma {:induction false} WholeAt(t: string, i: nat) returns (j: nat)
    requires MatchesWhole(t, i)
    ensures i <= j < |Contracts| && Width(Contracts[j]) == |t| && MatchesAt(Contracts[j], t)
    decreases |Contracts| - i
  {
    if Width(Contracts[i]) == |t| && MatchesAt(Contracts[i], t) {
      j := i;
    } else {
      j := WholeAt(t, i + 1);
    }
  }

  /** An alternative that matches a prefix of `s` matches `s`. */
  lemma MatchesAtPrefix(a: Alternative, t: string, s: string)
    requires Width(a) <= |t| <= |s| && s[..|t|] == t && MatchesAt(a, t)
    ensures MatchesAt(a, s)
  {
    match a
    case Word(w) => assert s[..|w|] == t[..|w|];
    case WordDigit(w) => assert s[..|w|] == t[..|w|] && s[|w|] == t[|w|];
    case OneOf(_) => assert s[0] == t[0];
  }

  /** An alternative that matches at the start of `s` is among the
      candidates from any earlier alternative on. */
  lemma {:induction false} InCandidates(s: string, i: nat, j: nat)
    requires i <= j < |Contracts| && MatchesAt(Contracts[j], s)
    ensures Width(Contracts[j]) in Candidates(s, i)
    decreases j - i
  {
    if i < j {
      InCandidates(s, i + 1, j);
    }
  }

  /** Every candidate length is the width of an alternative that matches. */
  lemma {:induction false} CandidateWidth(s: string, i: nat, k: nat) returns (m: nat)
    requires k in Candidates(s, i)
    ensures i <= m < |Contracts| && MatchesAt(Contracts[m], s) && Width(Contracts[m]) == k
    decreases |Contracts| - i
  {
    if MatchesAt(Contracts[i], s) && k == Width(Contracts[i]) {
      m := i;
    } else {
      m := CandidateWidth(s, i + 1, k);
    }
  }

  /** When exactly one of the candidate lengths is followed by a player
      digit, that is the pair found. */
  lemma {:induction false} PairAtUnique(s: string, ks: seq<nat>, w: nat)
    requires forall i :: 0 <= i < |ks| ==> 1 <= ks[i] <= |s| && IsContractToken(s[..ks[i]])
    requires w in ks && w < |s| && IsPlayerDigit(s[w])
    requires forall k :: k in ks && k < |s| && IsPlayerDigit(s[k]) ==> k == w
    ensures PairAt(s, ks) == Some(Pair(s[..w], s[w]))
    decreases |ks|
  {
    if ks[0] != w {
      assert forall k :: k in ks[1..] ==> k in ks;
      PairAtUnique(s, ks[1..], w);
    }
  }

  /** Before a pair written at the start of `t`, that pair's contract is
      a candidate, and no other candidate is followed by a player digit. */
  lemma PairUniqueAt(t: string, p: Pair)
    requires ValidPair(p) && |p.game| < |t| && t[..|p.game|] == p.game && t[|p.game|] == p.player
    ensures |p.game| in ContractMatches(t)
    ensures forall k :: k in ContractMatches(t) && k < |t| && IsPlayerDigit(t[k]) ==> k == |p.game|
  {
    var j := WholeAt(p.game, 0);
    MatchesAtPrefix(Contracts[j], p.game, t);
    InCandidates(t, 0, j);
    forall k | k in ContractMatches(t) && k < |t| && IsPlayerDigit(t[k])
      ensures k == |p.game|
    {
      var m := CandidateWidth(t, 0, k);
      PairWidthUnique(t, m, j);
    }
  }

  /** A pair written at the start of `s` is the pair GAME_TYPE_REGEX finds
      there. */
  lemma PairAtOfPair(s: string, p: Pair)
    requires ValidPair(p) && |p.game| < |s| && s[..|p.game|] == p.game && s[|p.game|] == p.player
    ensures PairAt(s, ContractMatches(s)) == Some(p)
  {
    PairUniqueAt(s, p);
    PairAtUnique(s, ContractMatches(s), |p.game|);
  }

  /** The pieces of a pair written before `u`. */
  lemma PairPieces(p: Pair, u: string, s: string)
    requires s == p.game + [p.player] + u
    ensures |p.game| < |s| && s[..|p.game|] == p.game && s[|p.game|] == p.player
    ensures s[|p.game| + 1..] == u
  {
    assert s[..|p.game|] == p.game;
  }

  /** `captures_iter` finds back the pairs written one after another. */
  lemma GamePairsOfJoin(ps: seq<Pair>)
    requires ValidPairs(ps)
    ensures GamePairs(JoinPairs(ps)) == ps
  {
    AllValidOf(ps);
    PairsOfJoin(ps);
  }

  lemma {:induction false} PairsOfJoin(ps: seq<Pair>)
    requires AllValid(ps)
    ensures GamePairs(JoinPairs(ps)) == ps
    decreases |ps|
  {
    if ps != [] {
      var s, p, t := JoinPairs(ps), ps[0], JoinPairs(ps[1..]);
      PairPieces(p, t, s);
      PairAtOfPair(s, p);
      PairsOfJoin(ps[1..]);
      HeadTail(ps);
    }
  }

  /** No contract starts at a king capture `[HKPX]K` or `-`. */
  lemma {:induction false} NoCandidatesBeforeKing(t: string, j: nat)
    requires |t| >= 2 && Upper(t[0]) == 'P' && Upper(t[1]) == 'K'
    ensures Candidates(t, j) == []
    decreases |Contracts| - j
  {
    if j < |Contracts| {
      NoCandidatesBeforeKing(t, j + 1);
      var a := Contracts[j];
      if !a.OneOf? && Width(a) <= |t| {
        assert ToUpper(t[..|a.w|])[0] == Upper(t[0]);
        if |a.w| >= 2 {
          assert ToUpper(t[..|a.w|])[1] == Upper(t[1]);
        }
      }
    }
  }

  lemma KingNoContract(t: string, c: GameCapture)
    requires TailShape(c) && t == c.king + c.teammate + c.talon
    ensures ContractMatches(t) == []
  {
    if c.king == "-" || Upper(t[0]) != 'P' {
      NoCandidates(t, 0);
    } else {
      NoCandidatesBeforeKing(t, 0);
    }
  }

  /** The tail of GAME_REGEX reads back a well-shaped king, teammate and
      talon. */
  lemma GameTailOfShape(s: string, i: nat, c: GameCapture)
    requires TailShape(c) && i <= |s| && s[i..] == c.king + c.teammate + c.talon
    requires c.gameAndPlayer == s[..i]
    ensures GameTail(s, i) == Some(c)
  {
    var t, kl := s[i..], |c.king|;
    assert t[..kl] == c.king && t[kl] == c.teammate[0] && t[kl + 1..] == c.talon;
    assert c.teammate == [t[kl]];
    if c.king == "-" {
      assert t[0] == '-' && !In(t[0], "HKPX");
    } else {
      assert t[0] == c.king[0] && t[1] == c.king[1];
    }
  }

  /** The first candidate is taken when it is followed by a player digit
      and the rest of the pattern matches after it. */
  lemma TryContractsTake(s: string, i: nat, n: nat, ks: seq<nat>, w: nat, j: nat, m: nat)
    requires i <= |s| && ks != [] && ks[0] == w
    requires forall k :: 0 <= k < |ks| ==> 1 <= ks[k] <= |s| - i
    requires i + w < |s| && IsPlayerDigit(s[i + w])
    requires j == i + w + 1 && m == n + 1 && GameFrom(s, j, m).Some?
    ensures TryContracts(s, i, n, ks) == GameFrom(s, j, m)
  {
    AttemptOf(s, i, n, w, j, m);
    TryContractsFirst(s, i, n, ks);
  }

  /** A candidate followed by a player digit leads on to the rest of the
      pattern. */
  lemma AttemptOf(s: string, i: nat, n: nat, k: nat, j: nat, m: nat)
    requires i <= |s| && DigitAfter(s, i, k)
    requires j == i + k + 1 && m == n + 1
    ensures Attempt(s, i, n, k) == GameFrom(s, j, m)
  {
    AttemptUnfold(s, i, n, k);
  }

  lemma AttemptUnfold(s: string, i: nat, n: nat, k: nat)
    requires i <= |s| && DigitAfter(s, i, k)
    ensures Attempt(s, i, n, k) == GameFrom(s, i + k + 1, n + 1)
  {
  }

  /** The first candidate that leads to a match is taken. */
  lemma TryContractsFirst(s: string, i: nat, n: nat, ks: seq<nat>)
    requires i <= |s| && ks != []
    requires forall k :: 0 <= k < |ks| ==> 1 <= ks[k] <= |s| - i
    requires Attempt(s, i, n, ks[0]).Some?
    ensures TryContracts(s, i, n, ks) == Attempt(s, i, n, ks[0])
  {
  }

  /** A candidate that leads to no match is passed over. */
  lemma TryContractsNext(s: string, i: nat, n: nat, ks: seq<nat>)
    requires i <= |s| && ks != []
    requires forall k :: 0 <= k < |ks| ==> 1 <= ks[k] <= |s| - i
    requires Attempt(s, i, n, ks[0]).None?
    ensures TryContracts(s, i, n, ks) == TryContracts(s, i, n, ks[1..])
  {
  }

  /** A candidate not followed by a player digit is passed over. */
  lemma TryContractsSkip(s: string, i: nat, n: nat, ks: seq<nat>)
    requires i <= |s| && ks != []
    requires forall j :: 0 <= j < |ks| ==> 1 <= ks[j] <= |s| - i
    requires !(i + ks[0] < |s| && IsPlayerDigit(s[i + ks[0]]))
    ensures TryContracts(s, i, n, ks) == TryContracts(s, i, n, ks[1..])
  {
  }

  /** One more pair at `i`: the candidates are tried in order, and exactly
      one of them, `w`, is followed by a player digit; the rest of the
      pattern matches after it, from `j` with `m` pairs read. */
  lemma {:induction false} TryContractsUnique(s: string, i: nat, n: nat, ks: seq<nat>, w: nat, j: nat, m: nat, c: GameCapture)
    requires i <= |s|
    requires forall k :: 0 <= k < |ks| ==> 1 <= ks[k] <= |s| - i
    requires w in ks && i + w < |s| && IsPlayerDigit(s[i + w])
    requires forall k :: k in ks && i + k < |s| && IsPlayerDigit(s[i + k]) ==> k == w
    requires j == i + w + 1 && m == n + 1 && GameFrom(s, j, m) == Some(c)
    ensures TryContracts(s, i, n, ks) == Some(c)
    decreases |ks|
  {
    if ks[0] == w {
      TryContractsTake(s, i, n, ks, w, j, m);
    } else {
      assert ks[0] in ks;
      TryContractsSkip(s, i, n, ks);
      assert forall k :: k in ks[1..] ==> k in ks;
      TryContractsUnique(s, i, n, ks[1..], w, j, m, c);
    }
  }

  /** The pieces of `s` after position `i` when a pair starts there. */
  lemma PairAfter(s: string, i: nat, p: Pair, u: string, tail: string)
    requires i <= |s| && s[i..] == p.game + [p.player] + u + tail
    ensures i + |p.game| < |s| && s[i..][..|p.game|] == p.game && s[i..][|p.game|] == p.player
    ensures s[i + |p.game| + 1..] == u + tail
    ensures s[..i] + (p.game + [p.player] + u) == s[..i + |p.game| + 1] + u
  {
    var t := s[i..];
    assert t[..|p.game|] == p.game;
    assert s[i + |p.game| + 1..] == t[|p.game| + 1..];
    assert s[..i + |p.game| + 1] == s[..i] + t[..|p.game| + 1];
    assert t[..|p.game| + 1] == p.game + [p.player];
  }

  /** The uniqueness of the pair at `i`, stated on `s` itself. */
  lemma PairUniqueAfter(s: string, i: nat, p: Pair)
    requires ValidPair(p) && i + |p.game| < |s|
    requires s[i..][..|p.game|] == p.game && s[i..][|p.game|] == p.player
    ensures IsPlayerDigit(s[i + |p.game|])
    ensures forall j :: 0 <= j < |ContractMatches(s[i..])| ==> 1 <= ContractMatches(s[i..])[j] <= |s| - i
    ensures |p.game| in ContractMatches(s[i..])
    ensures forall k :: k in ContractMatches(s[i..]) && i + k < |s| && IsPlayerDigit(s[i + k]) ==> k == |p.game|
  {
    var t := s[i..];
    PairUniqueAt(t, p);
    forall k | k in ContractMatches(t) && i + k < |s| && IsPlayerDigit(s[i + k])
      ensures k == |p.game|
    {
      assert t[k] == s[i + k];
    }
  }

  /** GAME_REGEX takes one more pair when one can be read. */
  lemma GameFromMore(s: string, i: nat, n: nat, c: GameCapture)
    requires i <= |s| && n < 4
    requires TryContracts(s, i, n, ContractMatches(s[i..])) == Some(c)
    ensures GameFrom(s, i, n) == Some(c)
  {
  }

  /** GAME_REGEX ends the pairs when no contract starts at `i`. */
  lemma GameFromEnd(s: string, i: nat, n: nat)
    requires i <= |s| && n >= 1 && ContractMatches(s[i..]) == []
    ensures GameFrom(s, i, n) == GameTail(s, i)
  {
  }

  /** The last step: after the pairs only the tail is left. */
  lemma GameFromOfTail(s: string, i: nat, n: nat, tail: string, c: GameCapture)
    requires 1 <= n <= 4
    requires TailShape(c) && tail == c.king + c.teammate + c.talon
    requires i <= |s| && s[i..] == tail && c.gameAndPlayer == s[..i]
    ensures GameFrom(s, i, n) == Some(c)
  {
    KingNoContract(s[i..], c);
    GameFromEnd(s, i, n);
    GameTailOfShape(s, i, c);
  }

  /** One step: the pair `p` at `i` is read, and the pattern matches after
      it from `j` with `m` pairs read. */
  lemma GameFromOfPair(s: string, i: nat, n: nat, p: Pair, j: nat, m: nat, c: GameCapture)
    requires ValidPair(p) && n < 4 && i + |p.game| < |s|
    requires s[i..][..|p.game|] == p.game && s[i..][|p.game|] == p.player
    requires j == i + |p.game| + 1 && m == n + 1 && GameFrom(s, j, m) == Some(c)
    ensures GameFrom(s, i, n) == Some(c)
  {
    PairUniqueAfter(s, i, p);
    TryContractsUnique(s, i, n, ContractMatches(s[i..]), |p.game|, j, m, c);
    GameFromMore(s, i, n, c);
  }

  /** GAME_REGEX after `n` pairs, at the start of the remaining pairs `ps`
      and a well-shaped tail, captures exactly those pairs and that tail. */
  lemma {:induction false} GameFromOfJoin(s: string, i: nat, n: nat, ps: seq<Pair>, tail: string, c: GameCapture)
    requires AllValid(ps)
    requires 1 <= n + |ps| <= 4
    requires TailShape(c) && tail == c.king + c.teammate + c.talon
    requires i <= |s| && s[i..] == JoinPairs(ps) + tail
    requires c.gameAndPlayer == s[..i] + JoinPairs(ps)
    ensures GameFrom(s, i, n) == Some(c)
    decreases |ps|
  {
    if ps == [] {
      assert s[i..] == tail && c.gameAndPlayer == s[..i];
      GameFromOfTail(s, i, n, tail, c);
    } else {
      var p, u := ps[0], JoinPairs(ps[1..]);
      PairAfter(s, i, p, u, tail);
      var j, m, qs := i + |p.game| + 1, n + 1, ps[1..];
      GameFromOfJoin(s, j, m, qs, tail, c);
      GameFromOfPair(s, i, n, p, j, m, c);
    }
  }

  /** GAME_REGEX matches one to four pairs followed by a well-shaped king,
      teammate and talon, and captures exactly them. */
  lemma GameGroupOfJoin(ps: seq<Pair>, c: GameCapture)
    requires ValidPairs(ps)
    requires 1 <= |ps| <= 4 && TailShape(c) && c.gameAndPlayer == JoinPairs(ps)
    ensures GameGroup(c.gameAndPlayer + c.king + c.teammate + c.talon) == Some(c)
  {
    AllValidOf(ps);
    var tail := c.king + c.teammate + c.talon;
    var s := c.gameAndPlayer + c.king + c.teammate + c.talon;
    var i, n := 0, 0;
    Regroup(c.gameAndPlayer, c.king, c.teammate, c.talon);
    assert s[..i] + JoinPairs(ps) == JoinPairs(ps);
    GameFromOfJoin(s, i, n, ps, tail, c);
  }

  lemma Regroup(a: string, b: string, c: string, d: string)
    ensures (a + b + c + d)[0..] == a + (b + c + d)
  {
  }

  /** The pairs of a `gameAndPlayer` capture, pair `p` written before
      `rest`. */
  lemma JoinCons(p: Pair, rest: seq<Pair>)
    ensures JoinPairs([p] + rest) == p.game + [p.player] + JoinPairs(rest)
  {
    assert ([p] + rest)[1..] == rest;
  }

  /** The prefix of `s` up to a pair read at `i`. */
  lemma PrefixThroughPair(s: string, i: nat, k: nat, u: string)
    requires i + k < |s|
    ensures s[..i] + (s[i..][..k] + [s[i..][k]] + u) == s[..i + k + 1] + u
  {
    assert s[..i + k + 1] == s[..i] + (s[i..][..k] + [s[i..][k]]);
  }

  /** The pair read at `i`, `k` characters of contract then a player digit,
      put before the pairs read after it. */
  lemma PairThenPairs(s: string, i: nat, k: nat, rest: seq<Pair>) returns (qs: seq<Pair>)
    requires i + k < |s| && IsContractToken(s[i..][..k]) && IsPlayerDigit(s[i + k])
    requires AllValid(rest)
    ensures AllValid(qs) && |qs| == |rest| + 1
    ensures s[..i] + JoinPairs(qs) == s[..i + k + 1] + JoinPairs(rest)
  {
    var p := Pair(s[i..][..k], s[i..][k]);
    qs := [p] + rest;
    assert qs[1..] == rest;
    JoinCons(p, rest);
    PrefixThroughPair(s, i, k, JoinPairs(rest));
  }

  /** Every width of `ks` cuts a contract token off the front of `t`, stated
      width by width from the front, for the induction below. */
  predicate AllTokens(t: string, ks: seq<nat>)
  {
    ks == [] || (1 <= ks[0] <= |t| && IsContractToken(t[..ks[0]]) && AllTokens(t, ks[1..]))
  }

  lemma {:induction false} AllTokensOf(t: string, ks: seq<nat>)
    requires forall k :: 0 <= k < |ks| ==> 1 <= ks[k] <= |t| && IsContractToken(t[..ks[k]])
    ensures AllTokens(t, ks)
    decreases |ks|
  {
    if ks != [] {
      assert 1 <= ks[0] <= |t| && IsContractToken(t[..ks[0]]);
      assert forall k :: 0 <= k < |ks[1..]| ==> ks[1..][k] == ks[k + 1];
      AllTokensOf(t, ks[1..]);
    }
  }

  /** A candidate after which the rest of the pattern fails is passed over. */
  lemma TryContractsSkipNone(s: string, i: nat, n: nat, ks: seq<nat>, w: nat, j: nat, m: nat)
    requires i <= |s| && ks != [] && ks[0] == w
    requires forall k :: 0 <= k < |ks| ==> 1 <= ks[k] <= |s| - i
    requires i + w < |s| && IsPlayerDigit(s[i + w])
    requires j == i + w + 1 && m == n + 1 && GameFrom(s, j, m).None?
    ensures TryContracts(s, i, n, ks) == TryContracts(s, i, n, ks[1..])
  {
    AttemptOf(s, i, n, w, j, m);
    TryContractsNext(s, i, n, ks);
  }

  /** What GAME_REGEX captures as `gameAndPlayer` after `n` pairs, from
      position `i` on, is one to four pairs in all, written one after
      another. */
  lemma {:induction false} GameFromPairs(s: string, i: nat, n: nat, c: GameCapture) returns (qs: seq<Pair>)
    requires i <= |s| && n <= 4 && GameFrom(s, i, n) == Some(c)
    ensures AllValid(qs) && 1 <= n + |qs| <= 4
    ensures c.gameAndPlayer == s[..i] + JoinPairs(qs)
    decreases |s| - i, 1, 0
  {
    var ks := ContractMatches(s[i..]);
    if n < 4 && TryContracts(s, i, n, ks).Some? {
      GameFromMore(s, i, n, TryContracts(s, i, n, ks).value);
      AllTokensOf(s[i..], ks);
      qs := TryContractsPairs(s, i, n, ks, c);
    } else {
      qs := [];
      assert s[..i] + JoinPairs(qs) == s[..i];
    }
  }

  lemma {:induction false} TryContractsPairs(s: string, i: nat, n: nat, ks: seq<nat>, c: GameCapture) returns (qs: seq<Pair>)
    requires i <= |s| && n < 4
    requires forall k :: 0 <= k < |ks| ==> 1 <= ks[k] <= |s| - i
    requires AllTokens(s[i..], ks)
    requires TryContracts(s, i, n, ks) == Some(c)
    ensures AllValid(qs) && 1 <= |qs| && n + |qs| <= 4
    ensures c.gameAndPlayer == s[..i] + JoinPairs(qs)
    decreases |s| - i, 0, |ks|
  {
    var k, j, m := ks[0], i + ks[0] + 1, n + 1;
    if i + k < |s| && IsPlayerDigit(s[i + k]) && GameFrom(s, j, m).Some? {
      TryContractsTake(s, i, n, ks, k, j, m);
      var rest := GameFromPairs(s, j, m, c);
      assert IsContractToken(s[i..][..k]);
      qs := PairThenPairs(s, i, k, rest);
    } else {
      if i + k < |s| && IsPlayerDigit(s[i + k]) {
        TryContractsSkipNone(s, i, n, ks, k, j, m);
      } else {
        TryContractsSkip(s, i, n, ks);
      }
      var ls := ks[1..];
      qs := TryContractsPairs(s, i, n, ls, c);
    }
  }

  /** Every match of GAME_REGEX captures one to four pairs as
      `gameAndPlayer`, and `captures_iter` reads exactly those pairs back. */
  lemma GameGroupPairs(s: string)
    requires GameGroup(s).Some?
    ensures var g := GameGroup(s).value.gameAndPlayer;
            1 <= |GamePairs(g)| <= 4 && JoinPairs(GamePairs(g)) == g
  {
    var i, n := 0, 0;
    var qs := GameFromPairs(s, i, n, GameGroup(s).value);
    assert s[..i] + JoinPairs(qs) == JoinPairs(qs);
    ValidOfAll(qs);
    GamePairsOfJoin(qs);
  }

  // ---------------------------------------------------------------------
  // The calls group: CALL_REGEX (lines 41-42).
  // ---------------------------------------------------------------------

  /** The optional characters of each player's calls group, in order. */
  const CallLetters: string := "1234TUKV"

  /** The length of the greedy match of the optional characters `cls`
      (`1?2?3?4?T?U?K?V?` for CallLetters) at the start of `s`: each is taken
      when it is the next character. */
  function OptionalRun(s: string, cls: string): (k: nat)
    ensures k <= |s| && k <= |cls|
    decreases |cls|
  {
    if cls == [] then 0
    else if s != [] && Upper(s[0]) == cls[0] then 1 + OptionalRun(s[1..], cls[1..])
    else OptionalRun(s, cls[1..])
  }

  /** `w` is, up to case, a subsequence of `cls`: the language of the
      optional-characters pattern. */
  predicate InOrder(w: string, cls: string)
    decreases |cls|
  {
    if w == [] then true
    else if cls == [] then false
    else if Upper(w[0]) == cls[0] then InOrder(w[1..], cls[1..])
    else InOrder(w, cls[1..])
  }

  /** The greedy run consumes exactly a subsequence written before a
      character that none of the optional characters can take. */
  lemma {:induction false} OptionalRunOfInOrder(w: string, rest: string, cls: string)
    requires InOrder(w, cls)
    requires rest == [] || rest[0] == '/'
    requires forall i :: 0 <= i < |cls| ==> cls[i] != '/'
    ensures OptionalRun(w + rest, cls) == |w|
    decreases |cls|
  {
    if cls == [] {
    } else if w != [] && Upper(w[0]) == cls[0] {
      assert (w + rest)[1..] == w[1..] + rest;
      OptionalRunOfInOrder(w[1..], rest, cls[1..]);
    } else {
      if w == [] {
        assert w + rest == rest;
        assert '/' !in cls;
        NoRun(rest, cls);
      } else {
        OptionalRunOfInOrder(w, rest, cls[1..]);
      }
    }
  }

  /** Nothing is taken when the next character is none of the optional
      ones. */
  lemma {:induction false} NoRun(s: string, cls: string)
    requires s == [] || Upper(s[0]) !in cls
    ensures OptionalRun(s, cls) == 0
    decreases |cls|
  {
    if cls != [] {
      NoRun(s, cls[1..]);
    }
  }

  /** The greedy match of `1?2?3?4?T?U?K?V?` at the start of `s`. */
  function CallRun(s: string): (k: nat)
    ensures k <= |s|
  {
    OptionalRun(s, CallLetters)
  }

  /** The four groups of CALL_REGEX matched at the start of `s`; `g` groups
      remain, separated by `/`, the last with nothing after it. */
  function CallGroupsAt(s: string, g: nat): (r: Option<seq<string>>)
    requires g >= 1
    ensures r.Some? ==> |r.value| == g
    decreases g
  {
    var k := CallRun(s);
    if g == 1 then Some([s[..k]])
    else if k < |s| && s[k] == '/' then
      match CallGroupsAt(s[k + 1..], g - 1)
      case None => None
      case Some(rest) => Some([s[..k]] + rest)
    else None
  }

  /** `CALL_REGEX.captures(s)`. The pattern is not anchored: the match is the
      one at the leftmost position where the four groups match. */
  function CallsGroup(s: string): (r: Option<seq<string>>)
    ensures r.Some? ==> |r.value| == 4
    decreases |s|
  {
    var m := CallGroupsAt(s, 4);
    if m.Some? then m
    else if s == [] then None
    else CallsGroup(s[1..])
  }

  /** Every character of `w` is, up to case, one of the call letters. */
  predicate CallLettersOnly(w: string)
  {
    forall k :: 0 <= k < |w| ==> Upper(w[k]) in CallLetters
  }

  /** The greedy run takes only optional characters. */
  lemma {:induction false} OptionalRunLetters(s: string, cls: string)
    ensures forall k :: 0 <= k < OptionalRun(s, cls) ==> Upper(s[k]) in cls
    decreases |cls|
  {
    if cls != [] {
      if s != [] && Upper(s[0]) == cls[0] {
        OptionalRunLetters(s[1..], cls[1..]);
        forall k | 1 <= k < OptionalRun(s, cls)
          ensures Upper(s[k]) in cls
        {
          assert s[k] == s[1..][k - 1];
          assert Upper(s[k]) in cls[1..];
        }
      } else {
        OptionalRunLetters(s, cls[1..]);
        forall k | 0 <= k < OptionalRun(s, cls)
          ensures Upper(s[k]) in cls
        {
          assert Upper(s[k]) in cls[1..];
        }
      }
    }
  }

  /** The first group is a run of call letters. */
  lemma RunLetters(s: string)
    ensures CallLettersOnly(s[..CallRun(s)])
  {
    var k := CallRun(s);
    OptionalRunLetters(s, CallLetters);
    var w := s[..k];
    forall i | 0 <= i < |w|
      ensures Upper(w[i]) in CallLetters
    {
      assert w[i] == s[i];
    }
  }

  /** Where more than one group remains, the first is followed by `/` and
      the others are matched after it. */
  lemma CallGroupsAtSplit(s: string, g: nat)
    requires g >= 2 && CallGroupsAt(s, g).Some?
    ensures CallRun(s) < |s| && s[CallRun(s)] == '/'
    ensures CallGroupsAt(s[CallRun(s) + 1..], g - 1).Some?
    ensures CallGroupsAt(s, g).value == [s[..CallRun(s)]] + CallGroupsAt(s[CallRun(s) + 1..], g - 1).value
  {
  }

  /** The groups matched at the start of `s` hold call letters only. */
  lemma {:induction false} CallGroupsAtLetters(s: string, g: nat)
    requires g >= 1 && CallGroupsAt(s, g).Some?
    ensures forall j :: 0 <= j < g ==> CallLettersOnly(CallGroupsAt(s, g).value[j])
    decreases g
  {
    RunLetters(s);
    if g > 1 {
      CallGroupsAtSplit(s, g);
      CallGroupsAtLetters(s[CallRun(s) + 1..], g - 1);
    }
  }

  /** Whatever the calls pattern captures consists of call letters, in any
      case: every other character of the field lies outside the match. */
  lemma {:induction false} CallsGroupLetters(s: string)
    requires CallsGroup(s).Some?
    ensures forall j :: 0 <= j < 4 ==> CallLettersOnly(CallsGroup(s).value[j])
    decreases |s|
  {
    if CallGroupsAt(s, 4).Some? {
      CallGroupsAtLetters(s, 4);
    } else {
      CallsGroupLetters(s[1..]);
    }
  }

  /** `w` matches `1?2?3?4?T?U?K?V?` as a whole. */
  predicate IsCallRun(w: string)
  {
    InOrder(w, CallLetters)
  }

  /** The calls runs written with `/` between them. */
  function JoinCalls(ws: seq<string>): string
    requires |ws| >= 1
  {
    if |ws| == 1 then ws[0] else ws[0] + "/" + JoinCalls(ws[1..])
  }

  /** `s` is the runs `ws` written with `/` between them, each run being
      exactly what the greedy run of call letters takes at its position. */
  predicate SplitCalls(s: string, ws: seq<string>)
    requires |ws| >= 1
    decreases |ws|
  {
    && CallRun(s) == |ws[0]|
    && if |ws| == 1 then s == ws[0]
       else && |ws[0]| < |s| && s[..|ws[0]|] == ws[0] && s[|ws[0]|] == '/'
            && SplitCalls(s[|ws[0]| + 1..], ws[1..])
  }

  /** A first group `w` ended by `/` is followed by the groups matched
      after the `/`. */
  lemma CallGroupsStep(s: string, w: string, rest: seq<string>, g: nat)
    requires g >= 2 && CallRun(s) == |w| && |w| < |s| && s[..|w|] == w && s[|w|] == '/'
    requires CallGroupsAt(s[|w| + 1..], g - 1) == Some(rest)
    ensures CallGroupsAt(s, g) == Some([w] + rest)
  {
  }

  /** A sequence is its head followed by its tail. */
  lemma HeadTail<T>(xs: seq<T>)
    requires |xs| >= 1
    ensures [xs[0]] + xs[1..] == xs
  {
  }

  /** The groups of a split, with its first group taken off. */
  lemma CallGroupsCons(s: string, ws: seq<string>, g: nat)
    requires g >= 2 && |ws| >= 2
    requires CallRun(s) == |ws[0]| && |ws[0]| < |s| && s[..|ws[0]|] == ws[0] && s[|ws[0]|] == '/'
    requires CallGroupsAt(s[|ws[0]| + 1..], g - 1) == Some(ws[1..])
    ensures CallGroupsAt(s, g) == Some(ws)
  {
    CallGroupsStep(s, ws[0], ws[1..], g);
    HeadTail(ws);
  }

  /** What a split of more than one run says about its first run. */
  lemma SplitHead(s: string, ws: seq<string>)
    requires |ws| >= 2 && SplitCalls(s, ws)
    ensures CallRun(s) == |ws[0]| && |ws[0]| < |s| && s[..|ws[0]|] == ws[0] && s[|ws[0]|] == '/'
    ensures SplitCalls(s[|ws[0]| + 1..], ws[1..])
  {
  }

  /** What a split of one run says about it. */
  lemma SplitLast(s: string, ws: seq<string>)
    requires |ws| == 1 && SplitCalls(s, ws)
    ensures CallRun(s) == |s| && ws == [s]
  {
  }

  /** A whole run of call letters is the last group. */
  lemma CallGroupsLast(s: string)
    requires CallRun(s) == |s|
    ensures CallGroupsAt(s, 1) == Some([s])
  {
    assert s[..|s|] == s;
  }

  /** A split of one run is matched as that one group. */
  lemma CallGroupsOfSplitLast(s: string, ws: seq<string>)
    requires |ws| == 1 && SplitCalls(s, ws)
    ensures CallGroupsAt(s, 1) == Some(ws)
  {
    SplitLast(s, ws);
    CallGroupsLast(s);
  }

  /** A split of several runs is matched as its first run followed by the
      groups matched for the rest of the split. */
  lemma CallGroupsOfSplitStep(s: string, ws: seq<string>, g: nat)
    requires g == |ws| >= 2 && SplitCalls(s, ws)
    requires CallGroupsAt(s[|ws[0]| + 1..], g - 1) == Some(ws[1..])
    ensures CallGroupsAt(s, g) == Some(ws)
  {
    SplitHead(s, ws);
    CallGroupsCons(s, ws, g);
  }

  /** A split into `g` runs is matched as `g` groups, which are the runs. */
  lemma {:induction false} CallGroupsOfSplit(s: string, ws: seq<string>, g: nat)
    requires g == |ws| >= 1 && SplitCalls(s, ws)
    ensures CallGroupsAt(s, g) == Some(ws)
    decreases g
  {
    if g == 1 {
      CallGroupsOfSplitLast(s, ws);
    } else {
      SplitHead(s, ws);
      var rest, tail := s[|ws[0]| + 1..], ws[1..];
      CallGroupsOfSplit(rest, tail, g - 1);
      assert CallGroupsAt(rest, g - 1) == Some(tail);
      CallGroupsOfSplitStep(s, ws, g);
    }
  }

  /** Every one of `ws` matches `1?2?3?4?T?U?K?V?` as a whole. */
  predicate AllCallRuns(ws: seq<string>)
  {
    |ws| == 0 || (IsCallRun(ws[0]) && AllCallRuns(ws[1..]))
  }

  /** The recursive statement agrees with the quantified one. */
  lemma {:induction false} AllCallRunsOf(ws: seq<string>)
    requires forall i :: 0 <= i < |ws| ==> IsCallRun(ws[i])
    ensures AllCallRuns(ws)
  {
    if |ws| > 0 {
      forall i | 0 <= i < |ws[1..]|
        ensures IsCallRun(ws[1..][i])
      {
        assert ws[1..][i] == ws[i + 1];
      }
      AllCallRunsOf(ws[1..]);
    }
  }

  /** In joined runs the first run is taken whole and is followed by `/`
      and the join of the others. */
  lemma JoinHead(ws: seq<string>)
    requires |ws| >= 2 && IsCallRun(ws[0])
    ensures CallRun(JoinCalls(ws)) == |ws[0]| && |ws[0]| < |JoinCalls(ws)|
    ensures JoinCalls(ws)[..|ws[0]|] == ws[0] && JoinCalls(ws)[|ws[0]|] == '/'
    ensures JoinCalls(ws)[|ws[0]| + 1..] == JoinCalls(ws[1..])
  {
    var s, t := JoinCalls(ws), JoinCalls(ws[1..]);
    AroundSlash(ws[0], t, s);
    OptionalRunOfInOrder(ws[0], "/" + t, CallLetters);
  }

  /** The pieces of a string written as `w`, `/` and `t`. */
  lemma AroundSlash(w: string, t: string, s: string)
    requires s == w + "/" + t
    ensures s == w + ("/" + t)
    ensures |w| < |s| && s[..|w|] == w && s[|w|] == '/' && s[|w| + 1..] == t
  {
  }

  /** A split extended by one run in front. */
  lemma SplitCons(s: string, ws: seq<string>, t: string)
    requires |ws| >= 2
    requires CallRun(s) == |ws[0]| && |ws[0]| < |s| && s[..|ws[0]|] == ws[0] && s[|ws[0]|] == '/'
    requires s[|ws[0]| + 1..] == t && SplitCalls(t, ws[1..])
    ensures SplitCalls(s, ws)
  {
  }

  /** Runs of calls joined with `/` are split back into those runs. */
  lemma {:induction false} SplitOfJoin(ws: seq<string>)
    requires |ws| >= 1 && AllCallRuns(ws)
    ensures SplitCalls(JoinCalls(ws), ws)
    decreases |ws|
  {
    if |ws| == 1 {
      OptionalRunOfInOrder(ws[0], [], CallLetters);
      assert ws[0] + [] == ws[0];
    } else {
      SplitOfJoin(ws[1..]);
      JoinHead(ws);
      SplitCons(JoinCalls(ws), ws, JoinCalls(ws[1..]));
    }
  }

  /** Four runs of calls, written with `/` between them, are matched at the
      start of the field and give back the four runs. */
  lemma CallsRoundTrip(ws: seq<string>)
    requires |ws| == 4
    requires forall i :: 0 <= i < 4 ==> IsCallRun(ws[i])
    ensures CallsGroup(JoinCalls(ws)) == Some(ws)
  {
    AllCallRunsOf(ws);
    SplitOfJoin(ws);
    CallGroupsOfSplit(JoinCalls(ws), ws, 4);
  }

  /** The search for the calls pattern steps over a character that can
      neither start a run nor be its `/`. */
  lemma CallsSkip(c: char, rest: string)
    requires c != '/' && Upper(c) !in CallLetters
    ensures CallsGroup([c] + rest) == CallsGroup(rest)
  {
    NoRun([c] + rest, CallLetters);
    assert ([c] + rest)[1..] == rest;
  }

  /** The calls group of the notation's example line. */
  lemma CallsExample()
    ensures CallsGroup("1K/T//") == Some(["1K", "T", "", ""])
  {
    assert JoinCalls(["1K", "T", "", ""]) == "1K/T//";
    CallsRoundTrip(["1K", "T", "", ""]);
  }

  /** Four empty groups after a skipped character. */
  lemma SkipBeforeEmptyGroups(c: char)
    requires c != '/' && Upper(c) !in CallLetters
    ensures CallsGroup([c] + JoinCalls(["", "", "", ""])) == Some(["", "", "", ""])
  {
    CallsRoundTrip(["", "", "", ""]);
    CallsSkip(c, JoinCalls(["", "", "", ""]));
  }

  /** Four empty groups are written `///`. */
  lemma EmptyGroupsWritten(c: char)
    ensures [c] + JoinCalls(["", "", "", ""]) == [c, '/', '/', '/']
  {
    assert JoinCalls(["", "", "", ""]) == "///";
  }

  /** The calls pattern is not anchored: a character that can start no
      group is skipped, and the four empty groups after it are matched. */
  lemma CallsSkipsCharacter(c: char)
    requires c != '/' && Upper(c) !in CallLetters
    ensures CallsGroup([c, '/', '/', '/']) == Some(["", "", "", ""])
  {
    SkipBeforeEmptyGroups(c);
    EmptyGroupsWritten(c);
  }

  /** So `5///` is accepted with four empty groups rather than rejected. */
  lemma CallsUnanchored()
    ensures CallsGroup("5///") == Some(["", "", "", ""])
  {
    assert Upper('5') !in CallLetters;
    CallsSkipsCharacter('5');
    assert ['5', '/', '/', '/'] == "5///";
  }

  /** A call letter out of order is not an error either: no match starts
      at it, and the search finds the groups after it. */
  lemma CallsOutOfOrder()
    ensures CallsGroup("K1///") == Some(["1", "", "", ""])
  {
    var s := "K1///";
    assert OptionalRun(s[1..], "V") == 0;
    assert CallRun(s) == 1;
    assert CallGroupsAt(s, 4) == None;
    assert s[1..] == "1///";
    assert JoinCalls(["1", "", "", ""]) == "1///";
    CallsRoundTrip(["1", "", "", ""]);
  }

  /** No groups start at a character that is neither a call letter nor `/`. */
  lemma NoGroupsAt(s: string, g: nat)
    requires g >= 2 && s != [] && s[0] != '/' && Upper(s[0]) !in CallLetters
    ensures CallGroupsAt(s, g) == None
  {
    NoRun(s, CallLetters);
  }

  /** The search restarts after a character that continues no match, so the
      runs written before it are lost: player 0's `1` is dropped here. */
  lemma CallsDropEarlierRuns()
    ensures CallsGroup("1/x///") == Some(["", "", "", ""])
  {
    var s := "1/x///";
    NoGroupsAt(s[2..], 3);
    NoRun(s[1..], CallLetters[1..]);
    assert CallRun(s) == 1;
    assert CallGroupsAt(s, 4) == None;
    NoRun(s[1..], CallLetters);
    assert CallGroupsAt(s[1..], 4) == None;
    assert s[1..][1..] == s[2..] == ['x', '/', '/', '/'];
    CallsSkipsCharacter('x');
  }

  /** A letter out of order loses every run written before it, not only
      itself: in `2T1///` uhu and trull are dropped with the `1` kept. */
  lemma CallsDropBeforeOutOfOrder()
    ensures CallsGroup("2T1///") == Some(["1", "", "", ""])
  {
    var s := "2T1///";
    NoRun(s[2..], "UKV");
    assert OptionalRun(s[1..], "TUKV") == 1;
    assert OptionalRun(s, "234TUKV") == 2;
    assert CallRun(s) == 2;
    assert CallGroupsAt(s, 4) == None;
    assert CallRun(s[1..]) == 1;
    assert CallGroupsAt(s[1..], 4) == None;
    assert s[1..][1..] == s[2..] == "1///";
    assert JoinCalls(["1", "", "", ""]) == "1///";
    CallsRoundTrip(["1", "", "", ""]);
  }

  /** The number of `/` in `s`. */
  function Slashes(s: string): nat
  {
    if s == [] then 0 else (if s[0] == '/' then 1 else 0) + Slashes(s[1..])
  }

  /** A suffix holds no more `/` than the whole, and one fewer when the
      character before it is a `/`. */
  lemma {:induction false} SlashesSuffix(s: string, i: nat)
    requires i < |s|
    ensures Slashes(s) >= Slashes(s[i..])
    ensures s[i] == '/' ==> Slashes(s) >= 1 + Slashes(s[i + 1..])
    decreases i
  {
    assert s[i..][1..] == s[i + 1..];
    if i > 0 {
      SlashesSuffix(s[1..], i - 1);
      assert s[1..][i - 1..] == s[i..];
      assert s[1..][i..] == s[i + 1..];
    }
  }

  /** Where more than one group remains, a `/` follows the first run and
      the other groups match after it. */
  lemma CallGroupsAtNext(s: string, g: nat)
    requires g >= 2 && CallGroupsAt(s, g).Some?
    ensures CallRun(s) < |s| && s[CallRun(s)] == '/'
    ensures CallGroupsAt(s[CallRun(s) + 1..], g - 1).Some?
  {
  }

  /** `g` groups matched at the start of `s` need `g - 1` separators. */
  lemma {:induction false} CallGroupsAtSlashes(s: string, g: nat)
    requires g >= 1 && CallGroupsAt(s, g).Some?
    ensures Slashes(s) >= g - 1
    decreases g
  {
    if g > 1 {
      var k := CallRun(s);
      CallGroupsAtNext(s, g);
      var rest := s[k + 1..];
      CallGroupsAtSlashes(rest, g - 1);
      SlashesSuffix(s, k);
    }
  }

  /** A calls field with fewer than three `/` is rejected: no position of
      the search can match the four groups. */
  lemma {:induction false} FewSlashesRejected(s: string)
    requires Slashes(s) < 3
    ensures CallsGroup(s) == None
    decreases |s|
  {
    if CallGroupsAt(s, 4).Some? {
      CallGroupsAtSlashes(s, 4);
    }
    if s != [] {
      SlashesSuffix(s, 0);
      assert s[0..][1..] == s[1..];
      FewSlashesRejected(s[1..]);
    }
  }

  /** After a character that continues no match, at least three `/` must
      follow; here only two do, so the calls group is rejected. */
  lemma CallsRejectAfterStray()
    ensures CallsGroup("1/x/2/3") == None
  {
    var s := "1/x/2/3";
    NoGroupsAt(s[2..], 3);
    NoRun(s[1..], CallLetters[1..]);
    assert CallRun(s) == 1;
    assert CallGroupsAt(s, 4) == None;
    NoRun(s[1..], CallLetters);
    assert s[1..][1..] == s[2..];
    assert CallGroupsAt(s[1..], 4) == None;
    assert s[2..] == ['x'] + "/2/3";
    CallsSkip('x', "/2/3");
    assert Slashes("/2/3") == 2;
    FewSlashesRejected("/2/3");
  }

  /** Under `(?i)` a lower-case call letter matches the calls pattern. */
  lemma CallsIgnoreCase()
    ensures CallsGroup("t///") == Some(["t", "", "", ""])
  {
    assert IsCallRun("t") && IsCallRun("");
    assert JoinCalls(["t", "", "", ""]) == "t///";
    CallsRoundTrip(["t", "", "", ""]);
  }

  /** In a won-tricks field the trumps T1 to T19 are no tokens, while in a
      hand they are. */
  lemma WonTricksRejectLowTrumps()
    ensures !Rep("T15", Won, 0, 54) && Rep("T15", Hand, 0, 12)
  {
  }

  /** In a won-tricks field bare numbers are tokens, while in a hand they
      are not. */
  lemma WonTricksAcceptNumbers()
    ensures Rep("15", Won, 0, 54) && !Rep("15", Hand, 0, 12)
  {
  }
}
