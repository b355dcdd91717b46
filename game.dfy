/** The game state of src/model/game.rs (lines 151-311): four players with
    their hands, won tricks and calls, the trick on the table, the two talon
    halves and the table flag, and `GameState::from_str`, the decoder of the
    one-line notation
      `<cards> <contract> <calls> <flag> <fifth field>`. */
module Game {
  import opened Wrappers
  import opened Text
  import opened Cards
  import GameTypes
  import Collections
  import Patterns

  /** HAND_SIZE, STICH_SIZE and NUM_PLAYERS (lines 10-12). */
  const HandSize: nat := 12
  const StichSize: nat := 4
  const NumPlayers: nat := 4

  /** `Calls` (lines 158-171): the contract a player declared, with the
      king called and the talon half taken, and the eight announcements. */
  datatype Calls = Calls(
    typ: Option<GameTypes.GameType>, calledKing: Option<Card>, takenTalon: Option<nat>,
    pagat: bool, uhu: bool, pelikan: bool, quapil: bool,
    trull: bool, kings: bool, ultimo: bool, valat: bool)

  /** `Calls::default()`. */
  const DefaultCalls: Calls := Calls(None, None, None, false, false, false, false, false, false, false, false)

  /** `Player` (lines 151-156): a hand of `HandSize` slots and won tricks of
      `NumCards` slots. */
  datatype Player = Player(hand: Collections.CardCollection, stiche: Collections.CardCollection, calls: Calls)

  /** `GameState` (lines 173-179): `NumPlayers` players, a trick of
      `StichSize` slots and two talon halves of three slots. */
  datatype GameState = GameState(
    players: seq<Player>, stich: Collections.CardCollection,
    talon: seq<Collections.CardCollection>, kleinenStechenGrossen: bool)

  // ---------------------------------------------------------------------
  // The values read off the captures.
  // ---------------------------------------------------------------------

  /** The `king` capture (lines 225-228): `-` calls no king, anything else
      the pattern admits is decoded by `Card::from_str`, which cannot fail
      on it. */
  function KingOf(k: string): (r: Option<Card>)
    requires k == "-" || (|k| == 2 && Patterns.In(k[0], "HKPX") && Patterns.In(k[1], "K"))
    ensures r.None? <==> k == "-"
    ensures r.Some? ==> Code(r.value) == ToUpper(k)
  {
    if k == "-" then None
    else
      Patterns.HandTokenIffCode(k);
      DecodeSound(k, Cards.FromStr(k).value);
      Some(Cards.FromStr(k).value)
  }

  /** The `teammate` capture (lines 229-232): `-` names nobody, a digit
      the player it is parsed as. */
  function TeammateOf(t: string): (r: Option<nat>)
    requires |t| == 1 && (Patterns.IsPlayerDigit(t[0]) || t[0] == '-')
    ensures r.None? <==> t == "-"
    ensures r.Some? ==> 1 <= r.value <= NumPlayers && r.value == t[0] as int - '0' as int
  {
    if t == "-" then None else ParseDecimal(t)
  }

  /** The `talon` capture (lines 233-236): `-` takes no talon half, a number
      is parsed as a whole, so `12` is the number twelve. Neither parse can
      fail on what the pattern admits. */
  function TalonOf(t: string): (r: Option<nat>)
    requires t == "12" || (|t| == 1 && t[0] in "12-")
    ensures t == "-" ==> r == None
    ensures t == "1" ==> r == Some(1)
    ensures t == "2" ==> r == Some(2)
    ensures t == "12" ==> r == Some(12)
  {
    if t == "-" then None
    else
      assert t == "12" || t == "1" || t == "2";
      assert "12"[..1] == "1";
      ParseDecimal(t)
  }

  /** The player a `[1-4]` digit names, counted from 0: the `player - 1` of
      line 251, after the `parse` of lines 241-246. */
  function PlayerIndex(c: char): (i: nat)
    requires Patterns.IsPlayerDigit(c)
    ensures i < NumPlayers && ParseDecimal([c]) == Some(i + 1)
  {
    c as int - '1' as int
  }

  /** The game type of a contract the pattern matched (line 240). */
  function ContractOf(t: string): (g: GameTypes.GameType)
    requires Patterns.IsContractToken(t)
    ensures GameTypes.Code(g) == ToUpper(t)
  {
    Patterns.ContractTokenDecodes(t);
    GameTypes.DecodeSound(t, GameTypes.FromStr(t).value);
    GameTypes.FromStr(t).value
  }

  // ---------------------------------------------------------------------
  // The contract group: the loop of lines 238-254.
  // ---------------------------------------------------------------------

  /** What one contract/player pair writes on the calls of the player it
      names (lines 251-253). */
  function Declare(c: Calls, g: GameTypes.GameType, king: Option<Card>, talon: Option<nat>): (r: Calls)
    ensures r.typ == Some(g) && r.calledKing == king && r.takenTalon == talon
    ensures r.(typ := c.typ, calledKing := c.calledKing, takenTalon := c.takenTalon) == c
  {
    c.(typ := Some(g), calledKing := king, takenTalon := talon)
  }

  /** The players' calls after the pairs `ps` have been written on them in
      order, starting from the defaults. */
  function PairsCalls(ps: seq<Patterns.Pair>, king: Option<Card>, talon: Option<nat>): (cs: seq<Calls>)
    requires Patterns.ValidPairs(ps)
    ensures |cs| == NumPlayers
    decreases |ps|
  {
    if ps == [] then seq(NumPlayers, _ => DefaultCalls)
    else
      var cs := PairsCalls(ps[..|ps| - 1], king, talon);
      var p := ps[|ps| - 1];
      var i := PlayerIndex(p.player);
      cs[i := Declare(cs[i], ContractOf(p.game), king, talon)]
  }

  /** One turn of the contract loop: the pair at `j` writes its contract, the
      called king and the talon on the player it names, and on nobody else. */
  lemma PairsCallsStep(ps: seq<Patterns.Pair>, j: nat, king: Option<Card>, talon: Option<nat>)
    requires Patterns.ValidPairs(ps) && j < |ps|
    ensures Patterns.ValidPairs(ps[..j]) && Patterns.ValidPairs(ps[..j + 1])
    ensures var i := PlayerIndex(ps[j].player);
            var cs := PairsCalls(ps[..j], king, talon);
            PairsCalls(ps[..j + 1], king, talon) == cs[i := Declare(cs[i], ContractOf(ps[j].game), king, talon)]
  {
    assert ps[..j + 1][..j] == ps[..j];
  }

  /** Pair `p` names player `i` (counted from 0). */
  predicate Names(p: Patterns.Pair, i: nat)
  {
    p.player as int == '1' as int + i
  }

  /** The position of the last pair of `ps` that names player `i`. */
  function LastFor(ps: seq<Patterns.Pair>, i: nat): (r: Option<nat>)
    ensures r.Some? ==> r.value < |ps| && Names(ps[r.value], i)
    ensures r.Some? ==> forall j :: r.value < j < |ps| ==> !Names(ps[j], i)
    ensures r.None? ==> forall j :: 0 <= j < |ps| ==> !Names(ps[j], i)
    decreases |ps|
  {
    if ps == [] then None
    else if Names(ps[|ps| - 1], i) then Some(|ps| - 1)
    else LastFor(ps[..|ps| - 1], i)
  }

  /** The calls of player `i` as the last pair naming it declares them; a
      player no pair names keeps the default calls. */
  function LastDeclared(ps: seq<Patterns.Pair>, king: Option<Card>, talon: Option<nat>, i: nat): Calls
    requires Patterns.ValidPairs(ps)
  {
    match LastFor(ps, i)
    case None => DefaultCalls
    case Some(j) => Declare(DefaultCalls, ContractOf(ps[j].game), king, talon)
  }

  /** Writing the pairs in order leaves each player with the calls of the
      last pair naming it. */
  lemma {:induction false} PairsCallsLast(ps: seq<Patterns.Pair>, king: Option<Card>, talon: Option<nat>, i: nat)
    requires Patterns.ValidPairs(ps) && i < NumPlayers
    ensures PairsCalls(ps, king, talon)[i] == LastDeclared(ps, king, talon, i)
    decreases |ps|
  {
    if ps != [] {
      var init := ps[..|ps| - 1];
      PairsCallsLast(init, king, talon, i);
      if !Names(ps[|ps| - 1], i) {
        assert LastFor(ps, i) == LastFor(init, i);
        match LastFor(init, i)
        case None =>
        case Some(j) => assert init[j] == ps[j];
      }
    }
  }

  // ---------------------------------------------------------------------
  // The calls group: the closure of lines 260-291.
  // ---------------------------------------------------------------------

  /** The announcement characters, in the order the closure tests them. */
  const CallChars: string := "1234TKUV"

  /** One character of a player's calls group (lines 274-285). The match is
      on the character as written, so only upper-case letters announce. */
  function Call(c: Calls, ch: char): (r: Result<Calls>)
    ensures r.Ok? <==> ch in CallChars
    ensures r.Err? ==> r.error == "Invalid call"
  {
    match ch
    case '1' => Ok(c.(pagat := true))
    case '2' => Ok(c.(uhu := true))
    case '3' => Ok(c.(pelikan := true))
    case '4' => Ok(c.(quapil := true))
    case 'T' => Ok(c.(trull := true))
    case 'K' => Ok(c.(kings := true))
    case 'U' => Ok(c.(ultimo := true))
    case 'V' => Ok(c.(valat := true))
    case _ => Err("Invalid call")
  }

  /** A player's calls after the characters of `w`, read left to right; the
      first character that is no announcement stops with "Invalid call". */
  function GroupCalls(c: Calls, w: string): (r: Result<Calls>)
    ensures r.Ok? ==> r.value.typ == c.typ && r.value.calledKing == c.calledKing && r.value.takenTalon == c.takenTalon
    ensures r.Err? ==> r.error == "Invalid call"
    decreases |w|
  {
    if w == [] then Ok(c)
    else
      match GroupCalls(c, w[..|w| - 1])
      case Err(e) => Err(e)
      case Ok(c') => Call(c', w[|w| - 1])
  }

  /** The announcement character `ch` occurs in the group `w`. */
  predicate Has(w: string, ch: char)
  {
    ch in w
  }

  /** `c` with every announcement set whose character occurs in `w`. */
  function Announced(c: Calls, w: string): (r: Calls)
    ensures r.typ == c.typ && r.calledKing == c.calledKing && r.takenTalon == c.takenTalon
    ensures (c.pagat ==> r.pagat) && (c.uhu ==> r.uhu) && (c.pelikan ==> r.pelikan) && (c.quapil ==> r.quapil)
    ensures (c.trull ==> r.trull) && (c.kings ==> r.kings) && (c.ultimo ==> r.ultimo) && (c.valat ==> r.valat)
    ensures w == [] ==> r == c
  {
    c.(pagat := c.pagat || Has(w, '1'), uhu := c.uhu || Has(w, '2'),
       pelikan := c.pelikan || Has(w, '3'), quapil := c.quapil || Has(w, '4'),
       trull := c.trull || Has(w, 'T'), kings := c.kings || Has(w, 'K'),
       ultimo := c.ultimo || Has(w, 'U'), valat := c.valat || Has(w, 'V'))
  }

  /** Each arm of the match sets the one announcement its character names. */
  lemma CallIsAnnounced(c: Calls, x: char)
    requires Call(c, x).Ok?
    ensures Call(c, x) == Ok(Announced(c, [x]))
  {
    if x == '1' {
      AnnouncePagat(c);
    } else if x == '2' {
      AnnounceUhu(c);
    } else if x == '3' {
      AnnouncePelikan(c);
    } else if x == '4' {
      AnnounceQuapil(c);
    } else if x == 'T' {
      AnnounceTrull(c);
    } else if x == 'K' {
      AnnounceKings(c);
    } else if x == 'U' {
      AnnounceUltimo(c);
    } else {
      AnnounceValat(c);
    }
  }

  lemma AnnouncePagat(c: Calls)
    ensures Call(c, '1') == Ok(Announced(c, ['1']))
  {
  }

  lemma AnnounceUhu(c: Calls)
    ensures Call(c, '2') == Ok(Announced(c, ['2']))
  {
  }

  lemma AnnouncePelikan(c: Calls)
    ensures Call(c, '3') == Ok(Announced(c, ['3']))
  {
  }

  lemma AnnounceQuapil(c: Calls)
    ensures Call(c, '4') == Ok(Announced(c, ['4']))
  {
  }

  lemma AnnounceTrull(c: Calls)
    ensures Call(c, 'T') == Ok(Announced(c, ['T']))
  {
  }

  lemma AnnounceKings(c: Calls)
    ensures Call(c, 'K') == Ok(Announced(c, ['K']))
  {
  }

  lemma AnnounceUltimo(c: Calls)
    ensures Call(c, 'U') == Ok(Announced(c, ['U']))
  {
  }

  lemma AnnounceValat(c: Calls)
    ensures Call(c, 'V') == Ok(Announced(c, ['V']))
  {
  }

  /** Announcing a group and then one more character announces the longer
      group. */
  lemma AnnouncedAppend(c: Calls, w: string, x: char)
    ensures Announced(Announced(c, w), [x]) == Announced(c, w + [x])
  {
    forall y: char
      ensures Has(w + [x], y) <==> Has(w, y) || Has([x], y)
    {
      assert y in w + [x] <==> y in w || y == x;
    }
  }

  /** Reading a calls group succeeds exactly when every character is an
      announcement; it fails with "Invalid call" otherwise. */
  lemma {:induction false} GroupCallsOk(c: Calls, w: string)
    ensures GroupCalls(c, w).Ok? <==> forall k :: 0 <= k < |w| ==> w[k] in CallChars
    ensures GroupCalls(c, w).Err? ==> GroupCalls(c, w).error == "Invalid call"
    decreases |w|
  {
    if w != [] {
      var init := w[..|w| - 1];
      GroupCallsOk(c, init);
      assert forall k :: 0 <= k < |init| ==> init[k] == w[k];
    }
  }

  /** A calls group read in full sets exactly the announcements that occur
      in it, and leaves the contract, king and talon alone. */
  lemma {:induction false} GroupCallsFlags(c: Calls, w: string)
    requires GroupCalls(c, w).Ok?
    ensures GroupCalls(c, w).value == Announced(c, w)
    decreases |w|
  {
    if w == [] {
      assert c == Announced(c, w);
    } else {
      var init := w[..|w| - 1];
      GroupCallsFlags(c, init);
      CallIsAnnounced(Announced(c, init), w[|w| - 1]);
      AnnouncedAppend(c, init, w[|w| - 1]);
      assert init + [w[|w| - 1]] == w;
    }
  }

  /** The calls of all players after reading their groups `ws`: any
      character that is no announcement makes the whole group fail. */
  function ApplyCalls(cs: seq<Calls>, ws: seq<string>): (r: Result<seq<Calls>>)
    requires |cs| == |ws|
    ensures r.Ok? ==> |r.value| == |cs|
    ensures r.Err? ==> r.error == "Invalid call"
  {
    if forall i :: 0 <= i < |cs| ==> GroupCalls(cs[i], ws[i]).Ok? then
      Ok(seq(|cs|, i requires 0 <= i < |cs| => GroupCalls(cs[i], ws[i]).value))
    else Err("Invalid call")
  }

  // ---------------------------------------------------------------------
  // The table flag (lines 293-297).
  // ---------------------------------------------------------------------

  /** `kleinen_stechen_großen`: `J` or `j` sets it, `-` clears it, every
      other field is rejected. */
  function Flag(f: string): (r: Result<bool>)
    ensures r.Ok? <==> f in {"J", "j", "-"}
    ensures r.Ok? ==> (r.value <==> f != "-")
    ensures r.Err? ==> r.error == "Invalid kleinen_stechen_großen"
  {
    match f
    case "J" => Ok(true)
    case "j" => Ok(true)
    case "-" => Ok(false)
    case _ => Err("Invalid kleinen_stechen_großen")
  }

  // ---------------------------------------------------------------------
  // The decoder.
  // ---------------------------------------------------------------------

  /** The players as the cards group describes them (lines 198-216), with
      default calls. */
  function InitialPlayers(cc: Patterns.CardsCapture): (ps: seq<Player>)
    requires |cc.hands| == NumPlayers && |cc.stiche| == NumPlayers
    ensures |ps| == NumPlayers
  {
    seq(NumPlayers, i requires 0 <= i < NumPlayers =>
      Player(Collections.FromStr(cc.hands[i], HandSize).value,
             Collections.FromStr(cc.stiche[i], Collections.NumCards).value,
             DefaultCalls))
  }

  /** Nobody has announced anything when the cards group has been read. */
  lemma InitialCallsDefault(cc: Patterns.CardsCapture)
    requires |cc.hands| == NumPlayers && |cc.stiche| == NumPlayers
    ensures forall q :: 0 <= q < NumPlayers ==> InitialPlayers(cc)[q].calls == DefaultCalls
  {
  }

  /** The players `ps` with the calls `cs`. */
  function WithCalls(ps: seq<Player>, cs: seq<Calls>): (qs: seq<Player>)
    requires |ps| == |cs|
    ensures |qs| == |ps|
  {
    seq(|ps|, i requires 0 <= i < |ps| => ps[i].(calls := cs[i]))
  }

  lemma WithCallsTwice(ps: seq<Player>, cs: seq<Calls>, ds: seq<Calls>)
    requires |ps| == |cs| == |ds|
    ensures WithCalls(WithCalls(ps, cs), ds) == WithCalls(ps, ds)
  {
  }

  /** The calls the contract group writes on the players (lines 221-254). */
  function ContractCalls(gc: Patterns.GameCapture): (cs: seq<Calls>)
    requires Patterns.TailShape(gc)
    ensures |cs| == NumPlayers
  {
    PairsCalls(Patterns.GamePairs(gc.gameAndPlayer), KingOf(gc.king), TalonOf(gc.talon))
  }

  /** The state built from the cards group, the players' calls and the flag
      (lines 301-306). */
  function Assemble(cc: Patterns.CardsCapture, cs: seq<Calls>, f: bool): (g: GameState)
    requires |cc.hands| == NumPlayers && |cc.stiche| == NumPlayers && |cs| == NumPlayers
    ensures |g.players| == NumPlayers
  {
    GameState(WithCalls(InitialPlayers(cc), cs),
              Collections.FromStr(cc.stich, StichSize).value,
              [Collections.FromStr(cc.talon0, 3).value, Collections.FromStr(cc.talon1, 3).value],
              f)
  }

  /** The result of `GameState::from_str(s)`: fewer than five fields are
      rejected, and the first four are decoded group by group in the order
      the decoder checks them. The fifth field has to be present but is not
      read, and later fields are not looked at. */
  function Decode(s: string): (r: Result<GameState>)
    ensures r.Ok? ==> |r.value.players| == NumPlayers
  {
    var fields := SplitWhitespace(s);
    if |fields| < 5 then Err("Missing TAF groups")
    else DecodeCards(fields[0], fields[1], fields[2], fields[3])
  }

  /** From the cards group on (lines 190-218). */
  function DecodeCards(cardsField: string, gameField: string, callsField: string, flagField: string): (r: Result<GameState>)
    ensures r.Ok? ==> |r.value.players| == NumPlayers
    ensures r.Ok? ==> Patterns.CardsGroup(cardsField).Some? && Patterns.GameGroup(gameField).Some?
  {
    match Patterns.CardsGroup(cardsField)
    case None => Err("Invalid TAF cards group")
    case Some(cc) => DecodeGame(cc, gameField, callsField, flagField)
  }

  /** From the contract group on (lines 220-254). */
  function DecodeGame(cc: Patterns.CardsCapture, gameField: string, callsField: string, flagField: string): (r: Result<GameState>)
    requires Patterns.CardsShape(cc)
    ensures r.Ok? ==> |r.value.players| == NumPlayers
    ensures r.Ok? ==> Patterns.GameGroup(gameField).Some? && Patterns.CallsGroup(callsField).Some?
  {
    match Patterns.GameGroup(gameField)
    case None => Err("Invalid TAF game group")
    case Some(gc) => DecodeCalls(cc, ContractCalls(gc), callsField, flagField)
  }

  /** From the calls group on (lines 256-306), once the contract group has
      written `declared` on the players. */
  function DecodeCalls(cc: Patterns.CardsCapture, declared: seq<Calls>, callsField: string, flagField: string): (r: Result<GameState>)
    requires |cc.hands| == NumPlayers && |cc.stiche| == NumPlayers && |declared| == NumPlayers
    ensures r.Ok? ==> |r.value.players| == NumPlayers
    ensures r.Ok? ==> Patterns.CallsGroup(callsField).Some? && Flag(flagField).Ok?
  {
    match Patterns.CallsGroup(callsField)
    case None => Err("Invalid TAF calls group")
    case Some(ws) =>
      match ApplyCalls(declared, ws)
      case Err(e) => Err(e)
      case Ok(cs) =>
        match Flag(flagField)
        case Err(e) => Err(e)
        case Ok(f) => Ok(Assemble(cc, cs, f))
  }

  // ---------------------------------------------------------------------
  // `GameState::from_str` (lines 184-310), with the players array updated
  // in place. The `?` and range-check exits the source has after a
  // successful match are dead: the patterns admit only what the decoders
  // accept.
  // ---------------------------------------------------------------------

  /** The players array of lines 198-216, filled from the cards group. */
  method ReadPlayers(cards: Patterns.CardsCapture) returns (players: array<Player>)
    requires |cards.hands| == NumPlayers && |cards.stiche| == NumPlayers
    ensures fresh(players) && players[..] == InitialPlayers(cards)
  {
    players := new Player[NumPlayers];
    for i := 0 to NumPlayers
      invariant forall q :: 0 <= q < i ==> players[q] == InitialPlayers(cards)[q]
    {
      var hand := Collections.FromStr(cards.hands[i], HandSize);
      var stiche := Collections.FromStr(cards.stiche[i], Collections.NumCards);
      if hand.Err? || stiche.Err? {
        assert false;
        return;
      }
      players[i] := Player(hand.value, stiche.value, DefaultCalls);
    }
  }

  /** Lines 225-254: the king, teammate and talon captures are read, then
      each contract/player pair is written on the player it names. The
      teammate is read but not stored. */
  method ReadContract(players: array<Player>, game: Patterns.GameCapture)
    requires players.Length == NumPlayers && Patterns.TailShape(game)
    requires forall q :: 0 <= q < NumPlayers ==> players[q].calls == DefaultCalls
    modifies players
    ensures players[..] == WithCalls(old(players[..]), ContractCalls(game))
  {
    var king := KingOf(game.king);
    var teammate := TeammateOf(game.teammate);
    var talon := TalonOf(game.talon);
    var pairs := Patterns.GamePairs(game.gameAndPlayer);
    DeclarePairs(players, pairs, king, talon);
  }

  /** The loop of lines 239-254: each pair writes its contract, the king and
      the talon half on the player it names, so the last pair naming a
      player decides. The parse and range check of the player digit cannot
      fail on a digit the pattern admits. */
  method DeclarePairs(players: array<Player>, pairs: seq<Patterns.Pair>, king: Option<Card>, talon: Option<nat>)
    requires players.Length == NumPlayers && Patterns.ValidPairs(pairs)
    requires forall q :: 0 <= q < NumPlayers ==> players[q].calls == DefaultCalls
    modifies players
    ensures players[..] == WithCalls(old(players[..]), PairsCalls(pairs, king, talon))
  {
    ghost var initial := players[..];
    for j := 0 to |pairs|
      invariant forall q :: 0 <= q < NumPlayers ==>
                  players[q] == initial[q].(calls := PairsCalls(pairs[..j], king, talon)[q])
    {
      var pair := pairs[j];
      var gameType := ContractOf(pair.game);
      var p := PlayerIndex(pair.player);
      PairsCallsStep(pairs, j, king, talon);
      players[p] := players[p].(calls := players[p].calls.(typ := Some(gameType), calledKing := king, takenTalon := talon));
    }
    assert pairs[..|pairs|] == pairs;
  }

  /** Lines 260-291: the characters of each player's calls group, player by
      player and left to right, each setting one announcement; `false` at the
      first character that is no announcement. */
  method Announce(players: array<Player>, groups: seq<string>, ghost declared: seq<Calls>) returns (ok: bool)
    requires players.Length == NumPlayers && |groups| == NumPlayers && |declared| == NumPlayers
    requires forall q :: 0 <= q < NumPlayers ==> players[q].calls == declared[q]
    modifies players
    ensures ok <==> ApplyCalls(declared, groups).Ok?
    ensures ok ==> players[..] == WithCalls(old(players[..]), ApplyCalls(declared, groups).value)
  {
    ghost var initial := players[..];
    for p := 0 to NumPlayers
      invariant forall q :: 0 <= q < NumPlayers ==> players[q] == initial[q].(calls := players[q].calls)
      invariant forall q :: 0 <= q < p ==> GroupCalls(declared[q], groups[q]) == Ok(players[q].calls)
      invariant forall q :: p <= q < NumPlayers ==> players[q].calls == declared[q]
    {
      var w := groups[p];
      ghost var before := players[..];
      for k := 0 to |w|
        invariant forall q :: 0 <= q < NumPlayers && q != p ==> players[q] == before[q]
        invariant players[p] == before[p].(calls := players[p].calls)
        invariant GroupCalls(declared[p], w[..k]) == Ok(players[p].calls)
      {
        var c := players[p].calls;
        assert w[..k + 1][..k] == w[..k];
        assert GroupCalls(declared[p], w[..k + 1]) == Call(c, w[k]);
        match w[k]
        case '1' => players[p] := players[p].(calls := c.(pagat := true));
        case '2' => players[p] := players[p].(calls := c.(uhu := true));
        case '3' => players[p] := players[p].(calls := c.(pelikan := true));
        case '4' => players[p] := players[p].(calls := c.(quapil := true));
        case 'T' => players[p] := players[p].(calls := c.(trull := true));
        case 'K' => players[p] := players[p].(calls := c.(kings := true));
        case 'U' => players[p] := players[p].(calls := c.(ultimo := true));
        case 'V' => players[p] := players[p].(calls := c.(valat := true));
        case _ =>
          GroupCallsOk(declared[p], w);
          return false;
      }
      assert w[..|w|] == w;
    }
    return true;
  }

  /** `GameState::from_str`: the split into fields and the cards group. */
  method FromStr(s: string) returns (r: Result<GameState>)
    ensures r == Decode(s)
  {
    var split := SplitWhitespace(s);
    if |split| < 5 {
      return Err("Missing TAF groups");
    }
    var cardsString, gameString, callsString, flagString := split[0], split[1], split[2], split[3];
    var cardsMatch := Patterns.CardsGroup(cardsString);
    if cardsMatch.None? {
      return Err("Invalid TAF cards group");
    }
    var cards := cardsMatch.value;
    var talon0 := Collections.FromStr(cards.talon0, 3);
    var talon1 := Collections.FromStr(cards.talon1, 3);
    if talon0.Err? || talon1.Err? {
      assert false;
      return Err("Invalid card");
    }
    var players := ReadPlayers(cards);
    var stich := Collections.FromStr(cards.stich, StichSize);
    if stich.Err? {
      assert false;
      return Err("Invalid card");
    }
    r := FromGame(cards, players, stich.value, [talon0.value, talon1.value], gameString, callsString, flagString);
  }

  /** The contract group, read into the players array. */
  method FromGame(cards: Patterns.CardsCapture, players: array<Player>,
                  stich: Collections.CardCollection, talon: seq<Collections.CardCollection>,
                  gameString: string, callsString: string, flagString: string)
    returns (r: Result<GameState>)
    requires Patterns.CardsShape(cards) && players[..] == InitialPlayers(cards)
    requires stich == Collections.FromStr(cards.stich, StichSize).value
    requires talon == [Collections.FromStr(cards.talon0, 3).value, Collections.FromStr(cards.talon1, 3).value]
    modifies players
    ensures r == DecodeGame(cards, gameString, callsString, flagString)
  {
    var gameMatch := Patterns.GameGroup(gameString);
    if gameMatch.None? {
      return Err("Invalid TAF game group");
    }
    var game := gameMatch.value;
    InitialCallsDefault(cards);
    ReadContract(players, game);
    r := FromCalls(cards, players, stich, talon, ContractCalls(game), callsString, flagString);
  }

  /** The calls group, read into the players array, then the table flag. */
  method FromCalls(cards: Patterns.CardsCapture, players: array<Player>,
                   stich: Collections.CardCollection, talon: seq<Collections.CardCollection>,
                   ghost declared: seq<Calls>, callsString: string, flagString: string)
    returns (r: Result<GameState>)
    requires |cards.hands| == NumPlayers && |cards.stiche| == NumPlayers && |declared| == NumPlayers
    requires stich == Collections.FromStr(cards.stich, StichSize).value
    requires talon == [Collections.FromStr(cards.talon0, 3).value, Collections.FromStr(cards.talon1, 3).value]
    requires players[..] == WithCalls(InitialPlayers(cards), declared)
    modifies players
    ensures r == DecodeCalls(cards, declared, callsString, flagString)
  {
    var callsMatch := Patterns.CallsGroup(callsString);
    if callsMatch.None? {
      return Err("Invalid TAF calls group");
    }
    var groups := callsMatch.value;
    var ok := Announce(players, groups, declared);
    if !ok {
      return Err("Invalid call");
    }
    ghost var cs := ApplyCalls(declared, groups).value;
    WithCallsTwice(InitialPlayers(cards), declared, cs);
    assert players[..] == WithCalls(InitialPlayers(cards), cs);
    var flag: bool;
    match flagString {
      case "J" => flag := true;
      case "j" => flag := true;
      case "-" => flag := false;
      case _ => return Err("Invalid kleinen_stechen_großen");
    }
    assert Flag(flagString) == Ok(flag);
    assert DecodeCalls(cards, declared, callsString, flagString) == Ok(Assemble(cards, cs, flag));
    return Ok(GameState(players[..], stich, talon, flag));
  }

  // ---------------------------------------------------------------------
  // Properties of the decoder.
  // ---------------------------------------------------------------------

  /** Every character of every calls group is an announcement. */
  predicate AllAnnounced(ws: seq<string>)
  {
    forall p, k :: 0 <= p < |ws| && 0 <= k < |ws[p]| ==> ws[p][k] in CallChars
  }

  /** Reading the calls groups fails exactly when some character is no
      announcement. */
  lemma ApplyCallsOk(cs: seq<Calls>, ws: seq<string>)
    requires |cs| == |ws|
    ensures ApplyCalls(cs, ws).Ok? <==> AllAnnounced(ws)
  {
    forall p | 0 <= p < |cs| {
      GroupCallsOk(cs[p], ws[p]);
    }
  }

  /** The errors of the last phase: the calls group, its announcements and
      the flag, checked in that order. */
  lemma CallsPhaseErrors(cc: Patterns.CardsCapture, declared: seq<Calls>, callsField: string, flagField: string)
    requires Patterns.CardsShape(cc) && |declared| == NumPlayers
    ensures var r := DecodeCalls(cc, declared, callsField, flagField);
            var m := Patterns.CallsGroup(callsField);
            && (r == Err("Invalid TAF calls group") <==> m.None?)
            && (r == Err("Invalid call") <==> m.Some? && !AllAnnounced(m.value))
            && (r == Err("Invalid kleinen_stechen_großen") <==> m.Some? && AllAnnounced(m.value) && flagField !in {"J", "j", "-"})
            && (r.Err? ==> r.error in {"Invalid TAF calls group", "Invalid call", "Invalid kleinen_stechen_großen"})
  {
    if Patterns.CallsGroup(callsField).Some? {
      ApplyCallsOk(declared, Patterns.CallsGroup(callsField).value);
    }
  }

  /** A captured call letter fails the match of lines 274-285 exactly when
      it is written in lower case. */
  lemma LetterAnnounced(ch: char)
    requires Upper(ch) in Patterns.CallLetters
    ensures ch !in CallChars <==> ch in "tukv"
  {
  }

  /** Groups of call letters are all announcements unless one holds a
      lower-case `t`, `u`, `k` or `v`. */
  lemma CapturesAnnounced(ws: seq<string>)
    requires forall j :: 0 <= j < |ws| ==> Patterns.CallLettersOnly(ws[j])
    ensures !AllAnnounced(ws) <==> exists p, k :: 0 <= p < |ws| && 0 <= k < |ws[p]| && ws[p][k] in "tukv"
  {
    forall p, k | 0 <= p < |ws| && 0 <= k < |ws[p]|
      ensures ws[p][k] !in CallChars <==> ws[p][k] in "tukv"
    {
      LetterAnnounced(ws[p][k]);
    }
  }

  /** "Invalid call" is reported only for a lower-case call letter. The calls
      pattern is searched for rather than anchored, so for any other stray
      character the search starts again after it: the runs written before it
      are dropped, or the calls group is rejected when fewer than three `/`
      follow it. */
  lemma InvalidCallOnlyLowerCase(cc: Patterns.CardsCapture, declared: seq<Calls>, callsField: string, flagField: string)
    requires Patterns.CardsShape(cc) && |declared| == NumPlayers
    ensures DecodeCalls(cc, declared, callsField, flagField) == Err("Invalid call")
            <==> && Patterns.CallsGroup(callsField).Some?
                 && exists p, k :: 0 <= p < NumPlayers && 0 <= k < |Patterns.CallsGroup(callsField).value[p]|
                                   && Patterns.CallsGroup(callsField).value[p][k] in "tukv"
  {
    CallsPhaseErrors(cc, declared, callsField, flagField);
    if Patterns.CallsGroup(callsField).Some? {
      Patterns.CallsGroupLetters(callsField);
      CapturesAnnounced(Patterns.CallsGroup(callsField).value);
    }
  }

  /** The decoder reports the first group that fails, in the order fields,
      cards, contract, calls, announcements, flag; no other error (no
      "Invalid card", "Unknown card", "Invalid game type", "Invalid game
      player index", "Invalid teammate" or "Invalid talon") can occur. */
  lemma DecodeErrors(s: string)
    ensures var f := SplitWhitespace(s);
            Decode(s) == Err("Missing TAF groups") <==> |f| < 5
    ensures var f := SplitWhitespace(s);
            Decode(s) == Err("Invalid TAF cards group") <==> |f| >= 5 && Patterns.CardsGroup(f[0]).None?
    ensures var f := SplitWhitespace(s);
            Decode(s) == Err("Invalid TAF game group")
            <==> |f| >= 5 && Patterns.CardsGroup(f[0]).Some? && Patterns.GameGroup(f[1]).None?
    ensures var f := SplitWhitespace(s);
            |f| >= 5 && Patterns.CardsGroup(f[0]).Some? && Patterns.GameGroup(f[1]).Some? ==>
            Decode(s) == DecodeCalls(Patterns.CardsGroup(f[0]).value, ContractCalls(Patterns.GameGroup(f[1]).value), f[2], f[3])
    ensures Decode(s).Ok? || Decode(s).error in
              {"Missing TAF groups", "Invalid TAF cards group", "Invalid TAF game group",
               "Invalid TAF calls group", "Invalid call", "Invalid kleinen_stechen_großen"}
  {
    var f := SplitWhitespace(s);
    if |f| >= 5 && Patterns.CardsGroup(f[0]).Some? && Patterns.GameGroup(f[1]).Some? {
      CallsPhaseErrors(Patterns.CardsGroup(f[0]).value, ContractCalls(Patterns.GameGroup(f[1]).value), f[2], f[3]);
    }
  }

  /** Only the first four fields decide the result, once there are five. */
  lemma FourFieldsDecide(s: string, t: string)
    requires |SplitWhitespace(s)| >= 5 && |SplitWhitespace(t)| >= 5
    requires SplitWhitespace(s)[..4] == SplitWhitespace(t)[..4]
    ensures Decode(s) == Decode(t)
  {
    var f, g := SplitWhitespace(s), SplitWhitespace(t);
    assert f[0] == f[..4][0] && f[1] == f[..4][1] && f[2] == f[..4][2] && f[3] == f[..4][3];
    assert g[0] == g[..4][0] && g[1] == g[..4][1] && g[2] == g[..4][2] && g[3] == g[..4][3];
  }

  /** Anything written after a complete line, separated by whitespace, is
      ignored. */
  lemma TrailingFieldsIgnored(s: string, c: char, rest: string)
    requires IsWhitespace(c) && |SplitWhitespace(s)| >= 5
    ensures Decode(s + [c] + rest) == Decode(s)
  {
    SplitAcrossSpace(s, c, rest);
    var f := SplitWhitespace(s);
    assert (f + SplitWhitespace(rest))[..4] == f[..4];
    FourFieldsDecide(s + [c] + rest, s);
  }

  /** A state decoded in the last phase: hands, won tricks, trick and talon
      are the collections read from the cards group, each player's calls
      are its declared calls with exactly the announcements of its calls
      group added, and the flag is set by `J` or `j`. */
  lemma CallsPhaseState(cc: Patterns.CardsCapture, declared: seq<Calls>, ws: seq<string>, callsField: string, flagField: string)
    requires Patterns.CardsShape(cc) && |declared| == NumPlayers
    requires Patterns.CallsGroup(callsField) == Some(ws)
    requires DecodeCalls(cc, declared, callsField, flagField).Ok?
    ensures var g := DecodeCalls(cc, declared, callsField, flagField).value;
            && |g.players| == NumPlayers
            && g.kleinenStechenGrossen == (flagField in {"J", "j"})
            && g.stich == Collections.FromStr(cc.stich, StichSize).value
            && g.talon == [Collections.FromStr(cc.talon0, 3).value, Collections.FromStr(cc.talon1, 3).value]
    ensures var g := DecodeCalls(cc, declared, callsField, flagField).value;
            forall i :: 0 <= i < NumPlayers ==>
              && g.players[i].hand == Collections.FromStr(cc.hands[i], HandSize).value
              && g.players[i].stiche == Collections.FromStr(cc.stiche[i], Collections.NumCards).value
              && g.players[i].calls == Announced(declared[i], ws[i])
  {
    forall i | 0 <= i < NumPlayers
      ensures GroupCalls(declared[i], ws[i]).Ok?
      ensures GroupCalls(declared[i], ws[i]).value == Announced(declared[i], ws[i])
    {
      assert ApplyCalls(declared, ws).Ok?;
      GroupCallsFlags(declared[i], ws[i]);
    }
  }

  /** What a decoded state holds: the players' collections and the flag as
      in the last phase, and for each player the calls of the last
      contract/player pair naming it, with the announcements of its calls
      group. */
  lemma DecodeState(s: string, cc: Patterns.CardsCapture, gc: Patterns.GameCapture, ws: seq<string>)
    requires |SplitWhitespace(s)| >= 5
    requires Patterns.CardsGroup(SplitWhitespace(s)[0]) == Some(cc)
    requires Patterns.GameGroup(SplitWhitespace(s)[1]) == Some(gc)
    requires Patterns.CallsGroup(SplitWhitespace(s)[2]) == Some(ws)
    requires Decode(s).Ok?
    ensures Decode(s) == DecodeCalls(cc, ContractCalls(gc), SplitWhitespace(s)[2], SplitWhitespace(s)[3])
    ensures var ps := Patterns.GamePairs(gc.gameAndPlayer);
            forall i :: 0 <= i < NumPlayers ==>
              Decode(s).value.players[i].calls == Announced(LastDeclared(ps, KingOf(gc.king), TalonOf(gc.talon), i), ws[i])
  {
    var f := SplitWhitespace(s);
    var ps := Patterns.GamePairs(gc.gameAndPlayer);
    CallsPhaseState(cc, ContractCalls(gc), ws, f[2], f[3]);
    forall i | 0 <= i < NumPlayers
      ensures ContractCalls(gc)[i] == LastDeclared(ps, KingOf(gc.king), TalonOf(gc.talon), i)
    {
      PairsCallsLast(ps, KingOf(gc.king), TalonOf(gc.talon), i);
    }
  }

  // ---------------------------------------------------------------------
  // The notation's example line.
  // ---------------------------------------------------------------------

  lemma KingExample()
    ensures KingOf("XK") == Some(XK)
  {
    CodeInjective(KingOf("XK").value, XK);
  }

  lemma ContractOfExample()
    ensures ContractOf("R") == GameTypes.R
  {
    GameTypes.CodeInjective(ContractOf("R"), GameTypes.R);
  }

  lemma OnePairExample(king: Option<Card>, talon: Option<nat>)
    ensures PairsCalls([Patterns.Pair("R", '1')], king, talon)
         == seq(NumPlayers, _ => DefaultCalls)[0 := Declare(DefaultCalls, GameTypes.R, king, talon)]
  {
    ContractOfExample();
    assert [Patterns.Pair("R", '1')][..0] == [];
  }

  /** `R1XK-1` declares `R`, the king of diamonds and talon half 1 for the
      first player and leaves the others at their defaults. */
  lemma ContractExample()
    ensures var cs := ContractCalls(Patterns.GameCapture("R1", "XK", "-", "1"));
            && cs[0] == DefaultCalls.(typ := Some(GameTypes.R), calledKing := Some(XK), takenTalon := Some(1))
            && cs[1] == DefaultCalls && cs[2] == DefaultCalls && cs[3] == DefaultCalls
  {
    Patterns.GamePairsExample();
    KingExample();
    OnePairExample(Some(XK), Some(1));
  }

  /** The calls groups `1K` and `T` of the example line set pagat and kings,
      and trull. */
  lemma CallsFlagsExample()
    ensures GroupCalls(DefaultCalls, "1K") == Ok(DefaultCalls.(pagat := true, kings := true))
    ensures GroupCalls(DefaultCalls, "T") == Ok(DefaultCalls.(trull := true))
  {
    GroupCallsOk(DefaultCalls, "1K");
    GroupCallsFlags(DefaultCalls, "1K");
    GroupCallsOk(DefaultCalls, "T");
    GroupCallsFlags(DefaultCalls, "T");
  }

  /** The players' calls in the decoded state of the example line: the
      first plays `R` with the king of diamonds and talon half 1 and
      announces pagat and kings, the second announces trull. */
  const ExampleCalls: seq<Calls> := [
    DefaultCalls.(typ := Some(GameTypes.R), calledKing := Some(XK), takenTalon := Some(1), pagat := true, kings := true),
    DefaultCalls.(trull := true), DefaultCalls, DefaultCalls]

  /** What the contract group `R1XK-1` declares. */
  const ExampleDeclared: seq<Calls> :=
    seq(NumPlayers, _ => DefaultCalls)[0 := Declare(DefaultCalls, GameTypes.R, Some(XK), Some(1))]

  lemma ExampleContractCalls()
    ensures ContractCalls(Patterns.GameCapture("R1", "XK", "-", "1")) == ExampleDeclared
  {
    Patterns.GamePairsExample();
    KingExample();
    assert TalonOf("1") == Some(1);
    OnePairExample(Some(XK), Some(1));
  }

  /** A calls group made of announcements only adds them. */
  lemma GroupCallsAnnounced(c: Calls, w: string)
    requires forall k :: 0 <= k < |w| ==> w[k] in CallChars
    ensures GroupCalls(c, w) == Ok(Announced(c, w))
  {
    GroupCallsOk(c, w);
    GroupCallsFlags(c, w);
  }

  /** The calls groups `1K`, `T` and two empty ones, read on what `R1XK-1`
      declared. */
  lemma ExampleApplyCalls()
    ensures ApplyCalls(ExampleDeclared, ["1K", "T", "", ""]) == Ok(ExampleCalls)
  {
    var ws := ["1K", "T", "", ""];
    forall p | 0 <= p < NumPlayers
      ensures GroupCalls(ExampleDeclared[p], ws[p]) == Ok(ExampleCalls[p])
    {
      GroupCallsAnnounced(ExampleDeclared[p], ws[p]);
      assert Announced(ExampleDeclared[p], ws[p]) == ExampleCalls[p];
    }
    var r := ApplyCalls(ExampleDeclared, ws);
    assert r.value == [r.value[0], r.value[1], r.value[2], r.value[3]];
  }

  /** The contract, calls and flag fields of the example line, `R1XK-1`,
      `1K/T//` and `j`, decoded after any cards group. */
  lemma ExampleLineAfterCards(cc: Patterns.CardsCapture)
    requires Patterns.CardsShape(cc)
    ensures DecodeGame(cc, "R1XK-1", "1K/T//", "j") == Ok(Assemble(cc, ExampleCalls, true))
  {
    Patterns.GameGroupExample();
    ExampleContractCalls();
    Patterns.CallsExample();
    ExampleApplyCalls();
  }

  /** A line whose fields after the cards group are those of the example
      line, `R1XK-1 1K/T// j -`, decodes to the state of game.rs's test
      `game_state_from_str`: the collections read from its cards group, the
      calls `ExampleCalls` and the flag set. */
  lemma ExampleLine(s: string, cc: Patterns.CardsCapture)
    requires |SplitWhitespace(s)| == 5 && SplitWhitespace(s)[1..] == ["R1XK-1", "1K/T//", "j", "-"]
    requires Patterns.CardsGroup(SplitWhitespace(s)[0]) == Some(cc)
    ensures Decode(s) == Ok(Assemble(cc, ExampleCalls, true))
  {
    var f := SplitWhitespace(s);
    assert f[1] == "R1XK-1" && f[2] == "1K/T//" && f[3] == "j";
    ExampleLineAfterCards(cc);
  }

  /** A lower-case call letter passes the calls pattern but no arm of the
      match, so the line is rejected. */
  lemma LowerCaseCallRejected(cc: Patterns.CardsCapture, declared: seq<Calls>, flagField: string)
    requires Patterns.CardsShape(cc) && |declared| == NumPlayers
    ensures DecodeCalls(cc, declared, "t///", flagField) == Err("Invalid call")
  {
    Patterns.CallsIgnoreCase();
    InvalidCallOnlyLowerCase(cc, declared, "t///", flagField);
    var ws := Patterns.CallsGroup("t///").value;
    assert ws[0][0] in "tukv";
  }

  /** The teammate capture does not reach the players' calls. */
  lemma TeammateIgnored(gc: Patterns.GameCapture, t: string)
    requires Patterns.TailShape(gc) && Patterns.TailShape(gc.(teammate := t))
    ensures ContractCalls(gc.(teammate := t)) == ContractCalls(gc)
  {
  }
}
