/** The card vocabulary of src/model/card.rs: the 54 cards of the deck plus
    UNKNOWN (a card known to be in a slot whose identity is not recorded), and the
    case-insensitive decoder `Card::from_str`. */
module Cards {
  import opened Wrappers
  import opened Text

  /** The 54 cards and UNKNOWN, in the declaration order of the Rust enum:
      hearts (H), spades (P), clubs (K) and diamonds (X) with their king (K),
      queen (D), knight (P), jack (B) and four pip cards, then the 22 trumps. */
  datatype Card =
      UNKNOWN | HK | HD | HP | HB | H1 | H2 | H3 | H4 | PK | PD
    | PP | PB | P10 | P9 | P8 | P7 | KK | KD | KP | KB | K1
    | K2 | K3 | K4 | XK | XD | XP | XB | X10 | X9 | X8 | X7
    | T1 | T2 | T3 | T4 | T5 | T6 | T7 | T8 | T9 | T10 | T11
    | T12 | T13 | T14 | T15 | T16 | T17 | T18 | T19 | T20 | T21 | T22

  /** The notation code of each card: the key of its arm in `Card::from_str`. */
  function Code(c: Card): (s: string)
    ensures 0 < |s| <= 3
  {
    match c
    case UNKNOWN => "."
    case HK => "HK"
    case HD => "HD"
    case HP => "HP"
    case HB => "HB"
    case H1 => "H1"
    case H2 => "H2"
    case H3 => "H3"
    case H4 => "H4"
    case PK => "PK"
    case PD => "PD"
    case PP => "PP"
    case PB => "PB"
    case P10 => "P10"
    case P9 => "P9"
    case P8 => "P8"
    case P7 => "P7"
    case KK => "KK"
    case KD => "KD"
    case KP => "KP"
    case KB => "KB"
    case K1 => "K1"
    case K2 => "K2"
    case K3 => "K3"
    case K4 => "K4"
    case XK => "XK"
    case XD => "XD"
    case XP => "XP"
    case XB => "XB"
    case X10 => "X10"
    case X9 => "X9"
    case X8 => "X8"
    case X7 => "X7"
    case T1 => "T1"
    case T2 => "T2"
    case T3 => "T3"
    case T4 => "T4"
    case T5 => "T5"
    case T6 => "T6"
    case T7 => "T7"
    case T8 => "T8"
    case T9 => "T9"
    case T10 => "T10"
    case T11 => "T11"
    case T12 => "T12"
    case T13 => "T13"
    case T14 => "T14"
    case T15 => "T15"
    case T16 => "T16"
    case T17 => "T17"
    case T18 => "T18"
    case T19 => "T19"
    case T20 => "T20"
    case T21 => "T21"
    case T22 => "T22"
  }

  /** `Card::from_str`: upper-case the token, then look it up in the code
      table. */
  function FromStr(s: string): (r: Result<Card>)
    ensures r.Ok? ==> 1 <= |s| <= 3
    ensures r.Err? ==> r.error == "Unknown card"
  {
    Lookup(ToUpper(s))
  }

  /** The code table, for an upper-case token. A string equals a code
      exactly when it has the code's length and characters, so the table is
      consulted by length, then by first character (the suit, or T for a
      trump), then by the rest (the rank). */
  function Lookup(u: string): (r: Result<Card>)
    ensures r.Ok? ==> 1 <= |u| <= 3 && u[0] in "HPKXT."
    ensures r.Err? ==> r.error == "Unknown card"
  {
    if |u| == 1 then
      if u[0] == '.' then Ok(UNKNOWN) else Err("Unknown card")
    else if |u| == 2 then
      match u[0]
      case 'H' => Hearts(u[1])
      case 'P' => Spades(u[1])
      case 'K' => Clubs(u[1])
      case 'X' => Diamonds(u[1])
      case 'T' => LowTrump(u[1])
      case _ => Err("Unknown card")
    else if |u| == 3 then
      match u[0]
      case 'P' => if u[1] == '1' && u[2] == '0' then Ok(P10) else Err("Unknown card")
      case 'X' => if u[1] == '1' && u[2] == '0' then Ok(X10) else Err("Unknown card")
      case 'T' => HighTrump(u[1], u[2])
      case _ => Err("Unknown card")
    else
      Err("Unknown card")
  }

  /** The two-character hearts codes H<rank>. */
  function Hearts(rank: char): (r: Result<Card>)
    ensures r.Err? ==> r.error == "Unknown card"
  {
    match rank
    case 'K' => Ok(HK)
    case 'D' => Ok(HD)
    case 'P' => Ok(HP)
    case 'B' => Ok(HB)
    case '1' => Ok(H1)
    case '2' => Ok(H2)
    case '3' => Ok(H3)
    case '4' => Ok(H4)
    case _ => Err("Unknown card")
  }

  /** The two-character spades codes P<rank>. */
  function Spades(rank: char): (r: Result<Card>)
    ensures r.Err? ==> r.error == "Unknown card"
  {
    match rank
    case 'K' => Ok(PK)
    case 'D' => Ok(PD)
    case 'P' => Ok(PP)
    case 'B' => Ok(PB)
    case '9' => Ok(P9)
    case '8' => Ok(P8)
    case '7' => Ok(P7)
    case _ => Err("Unknown card")
  }

  /** The two-character clubs codes K<rank>. */
  function Clubs(rank: char): (r: Result<Card>)
    ensures r.Err? ==> r.error == "Unknown card"
  {
    match rank
    case 'K' => Ok(KK)
    case 'D' => Ok(KD)
    case 'P' => Ok(KP)
    case 'B' => Ok(KB)
    case '1' => Ok(K1)
    case '2' => Ok(K2)
    case '3' => Ok(K3)
    case '4' => Ok(K4)
    case _ => Err("Unknown card")
  }

  /** The two-character diamonds codes X<rank>. */
  function Diamonds(rank: char): (r: Result<Card>)
    ensures r.Err? ==> r.error == "Unknown card"
  {
    match rank
    case 'K' => Ok(XK)
    case 'D' => Ok(XD)
    case 'P' => Ok(XP)
    case 'B' => Ok(XB)
    case '9' => Ok(X9)
    case '8' => Ok(X8)
    case '7' => Ok(X7)
    case _ => Err("Unknown card")
  }

  /** The trumps T1 to T9. */
  function LowTrump(digit: char): (r: Result<Card>)
    ensures r.Err? ==> r.error == "Unknown card"
  {
    match digit
    case '1' => Ok(T1)
    case '2' => Ok(T2)
    case '3' => Ok(T3)
    case '4' => Ok(T4)
    case '5' => Ok(T5)
    case '6' => Ok(T6)
    case '7' => Ok(T7)
    case '8' => Ok(T8)
    case '9' => Ok(T9)
    case _ => Err("Unknown card")
  }

  /** The trumps T10 to T22. */
  function HighTrump(tens: char, units: char): (r: Result<Card>)
    ensures r.Err? ==> r.error == "Unknown card"
  {
    match (tens, units)
    case ('1', '0') => Ok(T10)
    case ('1', '1') => Ok(T11)
    case ('1', '2') => Ok(T12)
    case ('1', '3') => Ok(T13)
    case ('1', '4') => Ok(T14)
    case ('1', '5') => Ok(T15)
    case ('1', '6') => Ok(T16)
    case ('1', '7') => Ok(T17)
    case ('1', '8') => Ok(T18)
    case ('1', '9') => Ok(T19)
    case ('2', '0') => Ok(T20)
    case ('2', '1') => Ok(T21)
    case ('2', '2') => Ok(T22)
    case _ => Err("Unknown card")
  }

  /** Soundness of the rank tables: a card found under a suit letter and a
      rank has exactly that letter and rank as its code. */
  lemma HeartsSound(rank: char, c: Card)
    requires Hearts(rank) == Ok(c)
    ensures Code(c) == ['H', rank]
  {
  }

  lemma SpadesSound(rank: char, c: Card)
    requires Spades(rank) == Ok(c)
    ensures Code(c) == ['P', rank]
  {
  }

  lemma ClubsSound(rank: char, c: Card)
    requires Clubs(rank) == Ok(c)
    ensures Code(c) == ['K', rank]
  {
  }

  lemma DiamondsSound(rank: char, c: Card)
    requires Diamonds(rank) == Ok(c)
    ensures Code(c) == ['X', rank]
  {
  }

  lemma LowTrumpSound(digit: char, c: Card)
    requires LowTrump(digit) == Ok(c)
    ensures Code(c) == ['T', digit]
  {
  }

  lemma HighTrumpSound(tens: char, units: char, c: Card)
    requires HighTrump(tens, units) == Ok(c)
    ensures Code(c) == ['T', tens, units]
  {
    if tens == '1' && units <= '4' {
      LowTeensSound(units, c);
    } else if tens == '1' {
      HighTeensSound(units, c);
    } else {
      TwentiesSound(tens, units, c);
    }
  }

  /** The high-trump table split by rank: T10 to T14, T15 to T19, T20 to
      T22. */
  lemma LowTeensSound(units: char, c: Card)
    requires units <= '4' && HighTrump('1', units) == Ok(c)
    ensures Code(c) == ['T', '1', units]
  {
  }

  lemma HighTeensSound(units: char, c: Card)
    requires units > '4' && HighTrump('1', units) == Ok(c)
    ensures Code(c) == ['T', '1', units]
  {
  }

  lemma TwentiesSound(tens: char, units: char, c: Card)
    requires tens != '1' && HighTrump(tens, units) == Ok(c)
    ensures Code(c) == ['T', tens, units]
  {
  }

  /** The table finds a card only under its own code. */
  lemma {:induction false} LookupSound(u: string, c: Card)
    requires Lookup(u) == Ok(c)
    ensures Code(c) == u
  {
    if |u| == 1 {
      assert u == [u[0]];
    } else if |u| == 2 {
      assert u == [u[0], u[1]];
      match u[0]
      case 'H' => HeartsSound(u[1], c);
      case 'P' => SpadesSound(u[1], c);
      case 'K' => ClubsSound(u[1], c);
      case 'X' => DiamondsSound(u[1], c);
      case 'T' => LowTrumpSound(u[1], c);
    } else {
      assert u == [u[0], u[1], u[2]];
      if u[0] == 'T' {
        HighTrumpSound(u[1], u[2], c);
      }
    }
  }

  /** A decoded card's code is the upper-case form of the token. */
  lemma DecodeSound(s: string, c: Card)
    requires FromStr(s) == Ok(c)
    ensures Code(c) == ToUpper(s)
  {
    LookupSound(ToUpper(s), c);
  }

  /** The codes of the hearts king, queen, knight and jack are upper-case and found in the table. */
  lemma HeartsFaceCodes(c: Card)
    requires c in {HK, HD, HP, HB}
    ensures forall i :: 0 <= i < |Code(c)| ==> !('a' <= Code(c)[i] <= 'z')
    ensures Lookup(Code(c)) == Ok(c)
  {
  }

  /** The codes of the hearts pip cards are upper-case and found in the table. */
  lemma HeartsPipCodes(c: Card)
    requires c in {H1, H2, H3, H4}
    ensures forall i :: 0 <= i < |Code(c)| ==> !('a' <= Code(c)[i] <= 'z')
    ensures Lookup(Code(c)) == Ok(c)
  {
  }

  /** The codes of the spades king, queen, knight and jack are upper-case and found in the table. */
  lemma SpadesFaceCodes(c: Card)
    requires c in {PK, PD, PP, PB}
    ensures forall i :: 0 <= i < |Code(c)| ==> !('a' <= Code(c)[i] <= 'z')
    ensures Lookup(Code(c)) == Ok(c)
  {
  }

  /** The codes of the spades pip cards are upper-case and found in the table. */
  lemma SpadesPipCodes(c: Card)
    requires c in {P10, P9, P8, P7}
    ensures forall i :: 0 <= i < |Code(c)| ==> !('a' <= Code(c)[i] <= 'z')
    ensures Lookup(Code(c)) == Ok(c)
  {
  }

  /** The codes of the clubs king, queen, knight and jack are upper-case and found in the table. */
  lemma ClubsFaceCodes(c: Card)
    requires c in {KK, KD, KP, KB}
    ensures forall i :: 0 <= i < |Code(c)| ==> !('a' <= Code(c)[i] <= 'z')
    ensures Lookup(Code(c)) == Ok(c)
  {
  }

  /** The codes of the clubs pip cards are upper-case and found in the table. */
  lemma ClubsPipCodes(c: Card)
    requires c in {K1, K2, K3, K4}
    ensures forall i :: 0 <= i < |Code(c)| ==> !('a' <= Code(c)[i] <= 'z')
    ensures Lookup(Code(c)) == Ok(c)
  {
  }

  /** The codes of the diamonds king, queen, knight and jack are upper-case and found in the table. */
  lemma DiamondsFaceCodes(c: Card)
    requires c in {XK, XD, XP, XB}
    ensures forall i :: 0 <= i < |Code(c)| ==> !('a' <= Code(c)[i] <= 'z')
    ensures Lookup(Code(c)) == Ok(c)
  {
  }

  /** The codes of the diamonds pip cards are upper-case and found in the table. */
  lemma DiamondsPipCodes(c: Card)
    requires c in {X10, X9, X8, X7}
    ensures forall i :: 0 <= i < |Code(c)| ==> !('a' <= Code(c)[i] <= 'z')
    ensures Lookup(Code(c)) == Ok(c)
  {
  }

  /** The codes of UNKNOWN and the trumps T1 to T5 are upper-case and found in the table. */
  lemma LowTrumpsCodes(c: Card)
    requires c in {UNKNOWN, T1, T2, T3, T4, T5}
    ensures forall i :: 0 <= i < |Code(c)| ==> !('a' <= Code(c)[i] <= 'z')
    ensures Lookup(Code(c)) == Ok(c)
  {
  }

  /** The codes of the trumps T6 to T11 are upper-case and found in the table. */
  lemma MiddleTrumpsCodes(c: Card)
    requires c in {T6, T7, T8, T9, T10, T11}
    ensures forall i :: 0 <= i < |Code(c)| ==> !('a' <= Code(c)[i] <= 'z')
    ensures Lookup(Code(c)) == Ok(c)
  {
  }

  /** The codes of the trumps T12 to T17 are upper-case and found in the table. */
  lemma HighTrumpsCodes(c: Card)
    requires c in {T12, T13, T14, T15, T16, T17}
    ensures forall i :: 0 <= i < |Code(c)| ==> !('a' <= Code(c)[i] <= 'z')
    ensures Lookup(Code(c)) == Ok(c)
  {
  }

  /** The codes of the trumps T18 to T22 are upper-case and found in the table. */
  lemma TopTrumpsCodes(c: Card)
    requires c in {T18, T19, T20, T21, T22}
    ensures forall i :: 0 <= i < |Code(c)| ==> !('a' <= Code(c)[i] <= 'z')
    ensures Lookup(Code(c)) == Ok(c)
  {
  }

  /** Codes are written in upper case, and the table finds each card under
      its code. */
  lemma CodeInTable(c: Card)
    ensures forall i :: 0 <= i < |Code(c)| ==> !('a' <= Code(c)[i] <= 'z')
    ensures Lookup(Code(c)) == Ok(c)
  {
    if c in {HK, HD, HP, HB} {
      HeartsFaceCodes(c);
    } else if c in {H1, H2, H3, H4} {
      HeartsPipCodes(c);
    } else if c in {PK, PD, PP, PB} {
      SpadesFaceCodes(c);
    } else if c in {P10, P9, P8, P7} {
      SpadesPipCodes(c);
    } else if c in {KK, KD, KP, KB} {
      ClubsFaceCodes(c);
    } else if c in {K1, K2, K3, K4} {
      ClubsPipCodes(c);
    } else if c in {XK, XD, XP, XB} {
      DiamondsFaceCodes(c);
    } else if c in {X10, X9, X8, X7} {
      DiamondsPipCodes(c);
    } else if c in {UNKNOWN, T1, T2, T3, T4, T5} {
      LowTrumpsCodes(c);
    } else if c in {T6, T7, T8, T9, T10, T11} {
      MiddleTrumpsCodes(c);
    } else if c in {T12, T13, T14, T15, T16, T17} {
      HighTrumpsCodes(c);
    } else {
      TopTrumpsCodes(c);
    }
  }

  /** Codes are written in upper case. */
  lemma CodeIsUpper(c: Card)
    ensures ToUpper(Code(c)) == Code(c)
  {
    CodeInTable(c);
    ToUpperOfUpper(Code(c));
  }

  /** Every code decodes to its own card. */
  lemma DecodeCode(c: Card)
    ensures FromStr(Code(c)) == Ok(c)
  {
    CodeIsUpper(c);
    CodeInTable(c);
  }

  /** Decoding ignores ASCII case. */
  lemma CaseInsensitive(s: string)
    ensures FromStr(s) == FromStr(ToUpper(s))
  {
    ToUpperIdempotent(s);
  }

  /** A token is rejected exactly when its upper-case form is no card's code. */
  lemma RejectsIffNoCode(s: string)
    ensures FromStr(s).Err? <==> forall c: Card :: Code(c) != ToUpper(s)
  {
    if exists c: Card :: Code(c) == ToUpper(s) {
      var c: Card :| Code(c) == ToUpper(s);
      CaseInsensitive(s);
      DecodeCode(c);
    } else if FromStr(s).Ok? {
      DecodeSound(s, FromStr(s).value);
    }
  }

  /** Two tokens that decode to the same card agree up to case. */
  lemma DecodeInjective(s: string, t: string)
    requires FromStr(s).Ok? && FromStr(s) == FromStr(t)
    ensures ToUpper(s) == ToUpper(t)
  {
    DecodeSound(s, FromStr(s).value);
    DecodeSound(t, FromStr(t).value);
  }

  /** No two cards share a code: the table is a bijection between the 55
      variants and the 55 upper-case codes. */
  lemma CodeInjective(c: Card, d: Card)
    requires Code(c) == Code(d)
    ensures c == d
  {
    DecodeCode(c);
    DecodeCode(d);
  }

  /** Tokens the decoder rejects, among them near-misses of real codes. */
  lemma RejectedTokens()
    ensures FromStr("T23") == Err("Unknown card")
    ensures FromStr("X1") == Err("Unknown card")
    ensures FromStr("X4") == Err("Unknown card")
    ensures FromStr("H10") == Err("Unknown card")
    ensures FromStr("asd") == Err("Unknown card")
    ensures FromStr("4564") == Err("Unknown card")
  {
  }

  /** Lower- and mixed-case tokens decode like their upper-case form. */
  lemma LowerCaseTokens()
    ensures FromStr("hk") == Ok(HK) && FromStr("t22") == Ok(T22) && FromStr("xk") == Ok(XK)
    ensures FromStr("p10") == Ok(P10) && FromStr(".") == Ok(UNKNOWN)
  {
  }
}
