/** The game types of src/model/game_type.rs and their case-insensitive
    decoder `GameType::from_str`. */
module GameTypes {
  import opened Wrappers
  import opened Text

  /** The twenty game types, in the declaration order of the Rust enum. */
  datatype GameType =
      T | R | S | P1 | P2 | P3 | SR | PB1 | PB2 | PB3
    | B | BR | PO1 | PO2 | PO3 | D | BO | PD | SD | SPD

  /** The notation code of each game type: the key of its arm in
      `GameType::from_str`. */
  function Code(g: GameType): (s: string)
    ensures 1 <= |s| <= 3
  {
    match g
    case T => "T"
    case R => "R"
    case S => "S"
    case P1 => "P1"
    case P2 => "P2"
    case P3 => "P3"
    case SR => "SR"
    case PB1 => "PB1"
    case PB2 => "PB2"
    case PB3 => "PB3"
    case B => "B"
    case BR => "BR"
    case PO1 => "PO1"
    case PO2 => "PO2"
    case PO3 => "PO3"
    case D => "D"
    case BO => "BO"
    case PD => "PD"
    case SD => "SD"
    case SPD => "SPD"
  }

  /** `GameType::from_str`: upper-case the token and look it up in the code
      table, consulted by length and then character by character. */
  function FromStr(s: string): (r: Result<GameType>)
    ensures r.Ok? ==> 1 <= |s| <= 3
    ensures r.Err? ==> r.error == "Invalid game type"
  {
    var u := ToUpper(s);
    if |u| == 1 then OneLetter(u[0])
    else if |u| == 2 then TwoLetters(u[0], u[1])
    else if |u| == 3 then ThreeLetters(u[0], u[1], u[2])
    else Err("Invalid game type")
  }

  /** The one-letter codes. */
  function OneLetter(a: char): (r: Result<GameType>)
    ensures r.Err? ==> r.error == "Invalid game type"
  {
    match a
    case 'T' => Ok(T)
    case 'R' => Ok(R)
    case 'S' => Ok(S)
    case 'B' => Ok(B)
    case 'D' => Ok(D)
    case _ => Err("Invalid game type")
  }

  /** The two-letter codes. */
  function TwoLetters(a: char, b: char): (r: Result<GameType>)
    ensures r.Err? ==> r.error == "Invalid game type"
  {
    match (a, b)
    case ('P', '1') => Ok(P1)
    case ('P', '2') => Ok(P2)
    case ('P', '3') => Ok(P3)
    case ('S', 'R') => Ok(SR)
    case ('B', 'R') => Ok(BR)
    case ('B', 'O') => Ok(BO)
    case ('P', 'D') => Ok(PD)
    case ('S', 'D') => Ok(SD)
    case _ => Err("Invalid game type")
  }

  /** The three-letter codes. */
  function ThreeLetters(a: char, b: char, c: char): (r: Result<GameType>)
    ensures r.Err? ==> r.error == "Invalid game type"
  {
    match (a, b, c)
    case ('P', 'B', '1') => Ok(PB1)
    case ('P', 'B', '2') => Ok(PB2)
    case ('P', 'B', '3') => Ok(PB3)
    case ('P', 'O', '1') => Ok(PO1)
    case ('P', 'O', '2') => Ok(PO2)
    case ('P', 'O', '3') => Ok(PO3)
    case ('S', 'P', 'D') => Ok(SPD)
    case _ => Err("Invalid game type")
  }

  /** Soundness of the tables: a game type found under some letters has
      exactly those letters as its code. */
  lemma OneLetterSound(a: char, g: GameType)
    requires OneLetter(a) == Ok(g)
    ensures Code(g) == [a]
  {
  }

  lemma TwoLettersSound(a: char, b: char, g: GameType)
    requires TwoLetters(a, b) == Ok(g)
    ensures Code(g) == [a, b]
  {
  }

  lemma ThreeLettersSound(a: char, b: char, c: char, g: GameType)
    requires ThreeLetters(a, b, c) == Ok(g)
    ensures Code(g) == [a, b, c]
  {
  }

  /** A decoded game type's code is the upper-case form of the token. */
  lemma {:induction false} DecodeSound(s: string, g: GameType)
    requires FromStr(s) == Ok(g)
    ensures Code(g) == ToUpper(s)
  {
    var u := ToUpper(s);
    if |u| == 1 {
      OneLetterSound(u[0], g);
      assert u == [u[0]];
    } else if |u| == 2 {
      TwoLettersSound(u[0], u[1], g);
      assert u == [u[0], u[1]];
    } else {
      ThreeLettersSound(u[0], u[1], u[2], g);
      assert u == [u[0], u[1], u[2]];
    }
  }

  lemma DecodeCode(g: GameType)
    ensures FromStr(Code(g)) == Ok(g)
  {
  }

  /** Decoding ignores ASCII case. */
  lemma CaseInsensitive(s: string)
    ensures FromStr(s) == FromStr(ToUpper(s))
  {
    ToUpperIdempotent(s);
  }

  /** A token is rejected exactly when its upper-case form is no game type's
      code. */
  lemma RejectsIffNoCode(s: string)
    ensures FromStr(s).Err? <==> forall g: GameType :: Code(g) != ToUpper(s)
  {
    if exists g: GameType :: Code(g) == ToUpper(s) {
      var g: GameType :| Code(g) == ToUpper(s);
      CaseInsensitive(s);
      DecodeCode(g);
    } else if FromStr(s).Ok? {
      DecodeSound(s, FromStr(s).value);
    }
  }

  /** No two game types share a code. */
  lemma CodeInjective(g: GameType, h: GameType)
    requires Code(g) == Code(h)
    ensures g == h
  {
    DecodeCode(g);
    DecodeCode(h);
  }

  /** Mixed-case and rejected tokens. */
  lemma Examples()
    ensures FromStr("sPd") == Ok(SPD) && FromStr("po2") == Ok(PO2) && FromStr("t") == Ok(T)
    ensures FromStr("invalid") == Err("Invalid game type")
    ensures FromStr("psd") == Err("Invalid game type")
    ensures FromStr("pb4") == Err("Invalid game type")
    ensures FromStr("") == Err("Invalid game type")
  {
  }
}
