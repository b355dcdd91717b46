# pagengine game-state notation, modelled in Dafny

pagengine reads the state of a Tarock game from a one-line notation. That
line has five whitespace-separated groups:

1. the cards group: two talon halves, each player's hand and won tricks, and the current trick;
2. the contract group: contract/player pairs, the called king, the teammate and the talon half taken;
3. the calls group: four `/`-separated runs of announcements;
4. the *kleinen stechen großen* flag;
5. a fifth group that is required but not read.

This project models the decoder of that line, `GameState::from_str`. It also models what the decoder rests on:

- the card vocabulary and its case-insensitive code table;
- the contract vocabulary and its code table;
- the fixed-capacity `CardCollection<N>`, with its tokenising `from_str` and its set-based equality;
- the five fixed regular expressions, as hand-written recognizers.

The model follows the code as written, quirks included, and its properties are proved about that model.

| file | module | models |
|---|---|---|
| `wrappers.dfy` | `Wrappers` | `Option` and `Result` with a string error, like the `&'static str` errors of the source |
| `text.dfy` | `Text` | ASCII upper-casing, `split_whitespace` over the Unicode White_Space characters, and the decimal `parse::<usize>` |
| `card.dfy` | `Cards` | `src/model/card.rs`: `Card` and `Card::from_str` |
| `game_type.dfy` | `GameTypes` | `src/model/game_type.rs`: `GameType` and `GameType::from_str` |
| `patterns.dfy` | `Patterns` | `CARD_REGEX`, `CARDS_REGEX`, `GAME_TYPE_REGEX`, `GAME_REGEX` and `CALL_REGEX` (`src/model/game.rs` lines 15-43) |
| `collection.dfy` | `Collections` | `CardCollection<N>`: `new`, `contains`, `excludes`, `try_from`, `from_str`, `eq` |
| `game.dfy` | `Game` | `Calls`, `Player`, `GameState` and `GameState::from_str` |

How the source's constructs are modelled:

- **Patterns.** All five patterns carry `(?i)`, so letters are compared after ASCII upper-casing. Where `(?x)` is set, layout whitespace is not part of the pattern and `\#` is a literal `#`. Alternatives are tried in the order written, and greedy repetitions prefer one more iteration, as the leftmost-first matcher behind the patterns does.
- **`CardCollection<N>`** is a datatype. The const generic `N` becomes the length of `cards`, which every constructor fixes. Its operations are pure functions, as in the source.
- **`GameState::from_str`** is the method `Game.FromStr`. It works in the source's own form: a `players` array updated in place by the contract loop and by the calls loops, with early error returns. A chain of specification functions describes it, one per phase: `Decode`, `DecodeCards`, `DecodeGame`, `DecodeCalls`. The method is proved equal to `Decode`, and the properties are proved about `Decode`.
- **Dead error paths.** Under ASCII case folding, the source has `?` exits that can never be taken on input the patterns let through:
  - "Invalid card" for a talon, hand, trick or won-tricks capture (lines 195-218);
  - "Unknown card" for the king (line 227);
  - "Invalid teammate" (line 231) and "Invalid talon" (line 235);
  - "Invalid game type" (line 240) and "Invalid game player index" (lines 241-250).

  The model, which folds ASCII letters only, proves each of them unreachable. Under the Unicode case folding of the source's `(?i)`, "Invalid card" and "Unknown card" can be reached (see "## Left out"). For a token the card pattern found, `Patterns.HandTokenIffCode` shows that `Card::from_str` accepts it. For a contract the contract pattern found, `Patterns.ContractTokenIffCode` shows that `GameType::from_str` accepts it. The contract pattern only admits player digits 1 to 4. The method keeps an `assert false` branch where it reads the collections, and reads the contract captures through functions whose preconditions are what the patterns guarantee.

Quirks of the source reproduced as written:

- **Equality is set-based.** `CardCollection` equality compares the set of slot values, with `None` counted as a value. It also compares the number of empty slots and the set of excluded values. It is not a multiset comparison (`Collections.EqualIgnoresMultiplicity`).
- **The won-tricks fields use a different token pattern** (lines 22, 24, 26 and 28): `T(?:2[0-2])|1[0-9]|[1-9]`. So in a won-tricks field, `T1` to `T19` are no tokens and the bare numbers 1 to 19 are (`Patterns.WonTricksRejectLowTrumps`, `Patterns.WonTricksAcceptNumbers`). `CardCollection::from_str` then searches the field with the card pattern (lines 87-88), which finds no card in a bare number, so such numbers are silently dropped from the decoded won tricks (`Collections.WonNumberDropped`).
- **The calls pattern is not anchored** (line 42). It is searched for, and wherever the four groups cannot be matched the search starts again one character further on:
  - a character outside the alphabet, or a letter out of the canonical order, in front of the whole match is passed over (`Patterns.CallsUnanchored`, `Patterns.CallsOutOfOrder`);
  - such a character further in throws away the runs written before it: `1/x///` gives four empty runs, so player 0 loses pagat (`Patterns.CallsDropEarlierRuns`), and `2T1///` keeps only the `1`, losing uhu and trull (`Patterns.CallsDropBeforeOutOfOrder`);
  - the four groups must then be found after that character, so at least three `/` must follow it: `1/x/2/3` is rejected with "Invalid TAF calls group" (lines 257-258, `Patterns.CallsRejectAfterStray`), as is every field with fewer than three `/` (`Patterns.FewSlashesRejected`);
  - "Invalid call" is reported only for a lower-case `t`, `u`, `k` or `v`, which `(?i)` lets through the pattern but the case-sensitive `match` of lines 275-285 rejects (`Game.InvalidCallOnlyLowerCase`). Under Unicode case folding the Kelvin sign is a further such character (see "## Left out").

  A reader might expect any character outside the alphabet, or out of order, to be an "invalid call" error. The code never reports one for those characters: it drops the calls written before them, or rejects the whole calls group when too few `/` follow. The model follows the code.
- **The teammate is parsed but not stored** (`Game.TeammateIgnored`).
- **A talon of `12` is stored as the number twelve** (`Game.TalonOf`).

## Model

| member | source | states |
|---|---|---|
| Text.ToUpper | src/model/card.rs:66 | the upper-cased string has the same length, and each character is the ASCII upper case of the original |
| Text.ToUpperIdempotent | src/model/game_type.rs:31 | upper-casing twice is upper-casing once |
| Text.SplitWhitespace | src/model/game.rs:185 | every field is non-empty and contains no White_Space character |
| Text.SplitAcrossSpace | src/model/game.rs:185 | splitting `a`, a whitespace character, then `b` gives the fields of `a` followed by the fields of `b` |
| Text.ParseDecimal | src/model/game.rs:229-236 | parsing succeeds exactly on a non-empty string of decimal digits |
| Text.ParseShow | src/model/game.rs:233-236 | parsing the decimal rendering of any number gives that number back |
| Text.ParseExamples | src/model/game.rs:233-236 | `12` is twelve, `1` is one and `2` is two; `-` and the empty string do not parse |
| Cards.FromStr | src/model/card.rs:64-125 | a decoded token has 1 to 3 characters; every failure is "Unknown card" |
| Cards.DecodeSound | src/model/card.rs:65-121 | the code of a decoded card is the upper-cased token |
| Cards.Code | src/model/card.rs:66-121 | every card, UNKNOWN included, has a code of one to three characters |
| Cards.DecodeCode | src/model/card.rs:66-121 | every card, UNKNOWN included, decodes from its own code |
| Cards.CodeIsUpper | src/model/card.rs:66-121 | codes are written in upper case |
| Cards.CodeInTable | src/model/card.rs:66-121 | every code is free of lower-case letters, and the table maps it back to its card |
| Cards.CaseInsensitive | src/model/card.rs:65 | a token decodes like its upper-case form |
| Cards.RejectsIffNoCode | src/model/card.rs:122 | a token is rejected exactly when its upper-case form is no card's code |
| Cards.DecodeInjective | src/model/card.rs:65-121 | two tokens decoding to the same card agree up to case |
| Cards.CodeInjective | src/model/card.rs:4-60 | no two cards share a code, so cards and codes correspond one to one |
| Cards.RejectedTokens | src/model/card.rs:189-194 | `T23`, `X1`, `X4`, `H10`, `asd` and `4564` are "Unknown card" |
| Cards.LowerCaseTokens | src/model/card.rs:65 | `hk`, `t22`, `xk`, `p10` and `.` decode to HK, T22, XK, P10 and UNKNOWN |
| GameTypes.FromStr | src/model/game_type.rs:30-54 | a decoded token has 1 to 3 characters; every failure is "Invalid game type" |
| GameTypes.DecodeSound | src/model/game_type.rs:31-51 | the code of a decoded contract is the upper-cased token |
| GameTypes.Code | src/model/game_type.rs:32-51 | every contract has a code of one to three characters |
| GameTypes.DecodeCode | src/model/game_type.rs:32-51 | every contract decodes from its own code |
| GameTypes.CaseInsensitive | src/model/game_type.rs:31 | a token decodes like its upper-case form |
| GameTypes.RejectsIffNoCode | src/model/game_type.rs:52 | a token is rejected exactly when its upper-case form is no contract's code, so prefixes such as `PS` are rejected |
| GameTypes.CodeInjective | src/model/game_type.rs:4-25 | no two contracts share a code, so P1/PB1/PO1 and S/SR/SD/SPD are told apart |
| GameTypes.Examples | src/model/game_type.rs:84-110 | `sPd`, `po2` and `t` decode to SPD, PO2 and T; `invalid`, `psd`, `pb4` and the empty string are "Invalid game type" |
| Patterns.CardMatchLen | src/model/game.rs:15 | the match at the start of a string has at most 3 characters, and when it exists it is a whole card token |
| Patterns.IsHandToken | src/model/game.rs:15 | a token of the card pattern has one to three characters |
| Patterns.IsWonToken | src/model/game.rs:22 | a token of the won-tricks pattern has one to three characters, and one that does not start with a digit is also a token of the card pattern |
| Patterns.CardMatches | src/model/game.rs:87-88 | every match `find_iter` reports is a whole card token |
| Patterns.HandTokenIffCode | src/model/game.rs:15 | the card pattern's tokens are exactly the tokens `Card::from_str` accepts, so under ASCII case folding the "Invalid card" exit of line 92 is unreachable |
| Patterns.CardMatchesIgnoreCase | src/model/game.rs:15 | the upper-cased string has the same matches, each upper-cased |
| Patterns.SkipsNonTokens | src/model/game.rs:343-346 | the tokenizer finds nothing in `asdaP07sd` |
| Patterns.RepOfTokens | src/model/game.rs:19-29 | between `lo` and `hi` tokens written together match the repetition `{lo,hi}` |
| Patterns.SplitOfInterleave | src/model/game.rs:18-29 | pieces without separators, joined by separators, split back into the same pieces and separators |
| Patterns.CardsGroup | src/model/game.rs:191-193 | a matched cards group has 3 tokens in each talon half, 0-12 in each hand, 0-54 won-tricks tokens per player and 0-4 in the trick |
| Patterns.CardsGroupSound | src/model/game.rs:18-29 | the captures of a match, laid out with the separators `/#/#/#/#/#`, rebuild the whole field |
| Patterns.CardsGroupComplete | src/model/game.rs:18-29 | every well-shaped set of captures laid out with the separators is matched, with exactly those captures |
| Patterns.ContractMatches | src/model/game.rs:33 | every candidate length at a position spans a whole contract token |
| Patterns.ContractTokenIffCode | src/model/game.rs:33 | the contract pattern's tokens are exactly the tokens `GameType::from_str` accepts, so the `?` of line 240 cannot fail |
| Patterns.WholeIgnoresCase | src/model/game.rs:33 | the contract sub-pattern matches a token exactly when it matches the upper-cased token |
| Patterns.GamePairs | src/model/game.rs:239 | every pair found is a contract token followed by a player digit 1-4, so the check of line 248 never fails |
| Patterns.GameGroup | src/model/game.rs:37-38 | a match's king is `[HKPX]K` or `-`, its teammate `[1-4-]` and its talon `12`, `1`, `2` or `-`, and the four captures make up the whole field |
| Patterns.PairWidthUnique | src/model/game.rs:33 | at any position, every contract alternative that is followed by a player digit has the same width, so a pair can be read in one way only |
| Patterns.GamePairsOfJoin | src/model/game.rs:239 | pairs of a contract token and a player digit, written one after another, are read back by `captures_iter` exactly, in order |
| Patterns.GameGroupOfJoin | src/model/game.rs:37-38 | one to four such pairs followed by a well-shaped king, teammate and talon are matched, with exactly those captures |
| Patterns.GameGroupPairs | src/model/game.rs:37-38 | every match captures as `gameAndPlayer` one to four pairs, which `captures_iter` reads back exactly: they are what the contract loop writes |
| Patterns.GameGroupExample | src/model/game.rs:414 | `R1XK-1` captures the pairs `R1`, king `XK`, teammate `-` and talon `1` |
| Patterns.GamePairsExample | src/model/game.rs:414 | `R1` is the single pair (R, player 1) |
| Patterns.CallsGroup | src/model/game.rs:41-42 | a match has four groups |
| Patterns.CallsRoundTrip | src/model/game.rs:41-42 | four runs of call letters in canonical order, written with `/` between them, are matched and give back the four runs |
| Patterns.SplitOfJoin | src/model/game.rs:41-42 | runs of call letters in canonical order, joined with `/`, split back at each `/` into the same runs, each the longest run the pattern takes there |
| Patterns.CallGroupsOfSplit | src/model/game.rs:41-42 | a string that splits into `g` call runs at `/` is matched from its start, with those runs as its `g` groups |
| Patterns.CallsSkipsCharacter | src/model/game.rs:42 | for any character that is neither `/` nor a call letter up to case, that character followed by `///` matches with four empty groups |
| Patterns.CallsSkip | src/model/game.rs:42 | a character that is neither a call letter nor `/` is skipped by the search |
| Patterns.CallsGroupLetters | src/model/game.rs:42 | every captured character is a call letter up to case |
| Patterns.CallsExample | src/model/game.rs:414 | `1K/T//` gives the groups `1K`, `T`, empty, empty |
| Patterns.CallsUnanchored | src/model/game.rs:42 | `5///` is matched after the `5`, with four empty groups |
| Patterns.CallsOutOfOrder | src/model/game.rs:42 | in `K1///` the out-of-order `K` is passed over, and the groups `1`, empty, empty, empty are found |
| Patterns.CallsDropEarlierRuns | src/model/game.rs:42 | in `1/x///` the search restarts after the `x`, so the `1` written for player 0 is lost and four empty groups are found |
| Patterns.CallsDropBeforeOutOfOrder | src/model/game.rs:42 | in `2T1///` the out-of-order `1` restarts the search, so `2` and `T` are lost and the groups `1`, empty, empty, empty are found |
| Patterns.CallGroupsAtSlashes | src/model/game.rs:42 | the four groups matched at a position are separated by three `/` after it |
| Patterns.FewSlashesRejected | src/model/game.rs:42 | a calls field with fewer than three `/` has no match, so lines 257-258 report "Invalid TAF calls group" |
| Patterns.CallsRejectAfterStray | src/model/game.rs:42 | `1/x/2/3` has no match: no position before the `x` matches, and after it only two `/` follow |
| Patterns.CallsIgnoreCase | src/model/game.rs:41-42 | `t///` matches, capturing the lower-case `t` |
| Patterns.WonTricksRejectLowTrumps | src/model/game.rs:22 | `T15` is a valid hand but not a valid won-tricks field |
| Patterns.WonTricksAcceptNumbers | src/model/game.rs:22 | `15` is a valid won-tricks field but not a valid hand |
| Collections.New | src/model/game.rs:52-57 | a new collection has `n` slots and 54 excluded slots, and contains and excludes no card |
| Collections.Contains | src/model/game.rs:58-60 | a collection contains a card exactly when one of its slots holds it |
| Collections.Excludes | src/model/game.rs:61-63 | a collection excludes a card exactly when one of its excluded slots holds it |
| Collections.TryFromVec | src/model/game.rs:66-80 | succeeds exactly when the vector has `n` cards, each slot then holding the vector's card in order with nothing excluded; otherwise "Invalid vector length" |
| Collections.DecodeMatches | src/model/game.rs:87-96 | decoding the matches always yields exactly `n` slots, and the only error is "Invalid card" |
| Collections.DecodeTokens | src/model/game.rs:87-96 | matched tokens always decode; slot `i` holds the card whose code is token `i`, and the slots past the tokens are empty |
| Collections.FromStr | src/model/game.rs:85-101 | decoding never fails, gives `n` slots and excludes nothing |
| Collections.FromStrSlots | src/model/game.rs:85-101 | slot `i` is filled exactly when the pattern found an `i`-th token, and holds the card whose code is that token upper-cased |
| Collections.FromStrOfCodes | src/model/game.rs:85-101 | codes written one after another decode to the first `n` cards in order, then empty slots |
| Collections.ContainsOfCodes | src/model/game.rs:58-60 | the decoded collection contains exactly the first `n` cards written |
| Collections.FromStrIgnoresCase | src/model/game.rs:87-93 | a string decodes like its upper-case form |
| Collections.FromStrOfNoMatches | src/model/game.rs:94-95 | a string without tokens decodes to a new collection |
| Collections.FromStrOfNothing | src/model/game.rs:339-346 | the empty string and `asdaP07sd` decode to a new collection |
| Collections.WonNumberDropped | src/model/game.rs:22 | `15` is a valid won-tricks field, yet the card pattern finds no card in it, and it decodes to an empty collection |
| Collections.TruncatesExample | src/model/game.rs:327-330 | `H1H2H3H4` at capacity 3 gives H1, H2, H3 |
| Collections.LowerCaseExample | src/model/game.rs:414 | `hkx8t22t21` gives HK, X8, T22, T21, then empty slots |
| Collections.NoneCountIsMultiplicity | src/model/game.rs:110-111 | the count of empty slots is the multiplicity of `None` |
| Collections.Equal | src/model/game.rs:104-116 | equal collections contain the same cards, exclude the same cards and have the same number of empty slots |
| Collections.EqualReflexive | src/model/game.rs:104-116 | every collection equals itself |
| Collections.EqualSymmetric | src/model/game.rs:104-116 | equality is symmetric |
| Collections.EqualTransitive | src/model/game.rs:104-116 | equality is transitive |
| Collections.EqualOfPermutation | src/model/game.rs:104-116 | collections whose slots are a permutation of each other, with the same excluded values, are equal |
| Collections.EqualIgnoresMultiplicity | src/model/game.rs:106-107 | `[H1,H1,H2]` equals `[H1,H2,H2]`, although they are not the same multiset |
| Collections.UnequalNoneCount | src/model/game.rs:110-114 | `[H1, None, None]` and `[H1, H1, None]` have the same set of slot values, `None` included, and the same excluded values, yet are unequal: the number of empty slots is compared on its own |
| Collections.ReorderedEqual | src/model/game.rs:363-366 | `H1H2H3` equals `H3H2H1` |
| Collections.OtherCardUnequal | src/model/game.rs:367-370 | `H1H2H3` does not equal `H1H2H4` |
| Game.KingOf | src/model/game.rs:225-228 | `-` calls no king; otherwise the king is the card whose code is the upper-cased capture |
| Game.TeammateOf | src/model/game.rs:229-232 | `-` names nobody; otherwise the teammate is the player number 1-4 the digit denotes |
| Game.TalonOf | src/model/game.rs:233-236 | `-` takes no talon half; `1`, `2` and `12` are the numbers one, two and twelve |
| Game.PlayerIndex | src/model/game.rs:241-251 | the player a digit names, counted from 0, is below 4 and is the parsed digit minus one |
| Game.ContractOf | src/model/game.rs:240 | the contract's code is the upper-cased capture |
| Game.Declare | src/model/game.rs:251-253 | a pair gives the player it names the pair's contract, the called king and the taken talon, and keeps every announcement |
| Game.PairsCalls | src/model/game.rs:239-254 | the loop over the pairs leaves one set of calls for each of the four players |
| Game.PairsCallsStep | src/model/game.rs:239-254 | one turn of the loop writes on the player its pair names and leaves the other players as they were |
| Game.PairsCallsLast | src/model/game.rs:238-254 | after the loop, each player holds the contract, the called king and the talon of the last pair naming it, or the default calls if none does |
| Game.Call | src/model/game.rs:274-285 | a character is accepted exactly when it is one of `1 2 3 4 T K U V` as written; otherwise "Invalid call" |
| Game.CallIsAnnounced | src/model/game.rs:275-283 | an accepted character sets exactly the announcement it names |
| Game.GroupCalls | src/model/game.rs:273-288 | reading a player's run can fail only with "Invalid call", and a successful read keeps the contract, the called king and the talon |
| Game.Announced | src/model/game.rs:275-283 | adding a run's announcements keeps the contract, the called king and the talon, never clears an announcement, and changes nothing for an empty run |
| Game.GroupCallsOk | src/model/game.rs:273-288 | a player's run is read exactly when all its characters are accepted; otherwise "Invalid call" |
| Game.GroupCallsFlags | src/model/game.rs:273-288 | reading a run sets exactly the announcements whose characters occur in it, keeping the rest |
| Game.ApplyCalls | src/model/game.rs:261-290 | all four runs are read, or the result is "Invalid call" |
| Game.ApplyCallsOk | src/model/game.rs:261-290 | reading the runs succeeds exactly when every character of every run is accepted |
| Game.InvalidCallOnlyLowerCase | src/model/game.rs:257-290 | once the contract has been read, the result is "Invalid call" exactly when the calls pattern matches and a captured run holds a lower-case `t`, `u`, `k` or `v` |
| Game.Flag | src/model/game.rs:293-297 | `J` and `j` are true, `-` is false, and anything else is "Invalid kleinen_stechen_großen" |
| Game.Decode | src/model/game.rs:184-310 | a decoded state has four players |
| Game.DecodeCards | src/model/game.rs:190-218 | a state decoded from the cards group on has four players, and both the cards and the contract patterns matched |
| Game.DecodeGame | src/model/game.rs:220-254 | a state decoded from the contract group on has four players, and both the contract and the calls patterns matched |
| Game.DecodeCalls | src/model/game.rs:256-306 | a state decoded from the calls group on has four players, the calls pattern matched and the flag is `J`, `j` or `-` |
| Game.ReadPlayers | src/model/game.rs:198-216 | a fresh array of four players whose hands and won tricks are decoded from the captures, with default calls |
| Game.ReadContract | src/model/game.rs:221-254 | the players' calls become the calls the contract group writes; nothing else changes |
| Game.DeclarePairs | src/model/game.rs:239-254 | the loop over the pairs leaves each player with the calls the sequence of pairs writes |
| Game.Announce | src/model/game.rs:261-290 | succeeds exactly when every run is read, and then leaves every player with its announced calls |
| Game.FromStr | src/model/game.rs:184-310 | the method returns exactly `Decode(s)` |
| Game.FromGame | src/model/game.rs:220-306 | from the contract group on, the method returns what `DecodeGame` specifies |
| Game.FromCalls | src/model/game.rs:256-306 | from the calls group on, the method returns what `DecodeCalls` specifies |
| Game.CallsPhaseErrors | src/model/game.rs:257-297 | the last phase fails with the calls group error, "Invalid call" or the flag error, each exactly in its own case and in that order |
| Game.DecodeErrors | src/model/game.rs:185-309 | "Missing TAF groups" exactly with fewer than five fields, then the cards and game group errors exactly when their patterns fail, in that order; no other error than the last phase's can occur |
| Game.FourFieldsDecide | src/model/game.rs:185-189 | two lines with at least five fields and the same first four decode alike, so the fifth field is not read |
| Game.TrailingFieldsIgnored | src/model/game.rs:185 | anything appended after whitespace to a line of five fields changes nothing |
| Game.CallsPhaseState | src/model/game.rs:256-306 | a decoded state holds the collections decoded from the cards group and the flag `J`/`j`, and each player holds its declared calls with exactly its run's announcements added |
| Game.DecodeState | src/model/game.rs:184-306 | in a decoded line, each player's calls are those of the last contract pair naming it, with its run's announcements added |
| Game.ContractExample | src/model/game.rs:414-429 | `R1XK-1` gives the first player contract R, king XK and talon 1, and leaves the others at their defaults |
| Game.ExampleContractCalls | src/model/game.rs:414-429 | the contract group `R1XK-1` declares contract R, king XK and talon 1 for the first player and the defaults for the others |
| Game.ExampleApplyCalls | src/model/game.rs:414-436 | the calls groups `1K`, `T`, empty, empty, read on those declarations, add pagat and kings for the first player and trull for the second |
| Game.ExampleLineAfterCards | src/model/game.rs:410-436 | after any matched cards group, the fields `R1XK-1`, `1K/T//` and `j` decode to the test's calls and a set flag |
| Game.ExampleLine | src/model/game.rs:410-436 | a line whose last four fields are `R1XK-1 1K/T// j -` decodes to the collections of its cards group, the test's calls and a set flag |
| Game.CallsFlagsExample | src/model/game.rs:425-436 | `1K` sets pagat and kings, `T` sets trull |
| Game.LowerCaseCallRejected | src/model/game.rs:274-284 | the calls field `t///` gives "Invalid call" |
| Game.TeammateIgnored | src/model/game.rs:229-232 | changing the teammate capture does not change the calls written on the players |

## Left out

- Unicode case folding. The model folds ASCII letters only. The source's `(?i)` uses Unicode simple case folding, so the Kelvin sign U+212A matches `K` and the long s U+017F matches `S`. `to_uppercase` maps U+017F to `S` but leaves U+212A unchanged, and it can change the length of other strings. On these characters the source does what the model does not:
  - a card token written with U+212A, such as `\u{212A}1`, passes the cards pattern, and `Card::from_str` then rejects it: the source reports "Invalid card" (src/model/game.rs:92, reached from lines 195-218), and the model reports "Invalid TAF cards group";
  - a king written with U+212A, such as `P\u{212A}`, passes the contract pattern: the source reports "Unknown card" (src/model/game.rs:227, from src/model/card.rs:122), and the model reports "Invalid TAF game group";
  - a U+212A in a calls run is captured by `K?`, and the `match` of src/model/game.rs:275-285 rejects it with "Invalid call"; the model's calls search treats it as a stray character, as described under the calls quirk above;
  - a contract written with U+017F, such as `\u{017F}1`, is decoded by the source as S, and the model reports "Invalid TAF game group".
- `LazyLock` compilation of the patterns, and thread safety. The patterns are fixed recognizers here, not a general regular-expression engine.
- The `Debug` implementation of `CardCollection` (src/model/game.rs:118-149). It only formats output.
- src/main.rs, a driver that parses a fixed line and prints it: I/O only.
- src/engine/moveGenerator.rs, an unfinished stub separate from the decoder.
- The fifth (spritzen) group. It must be present but is never read (src/model/game.rs:299), so it has no behaviour to model beyond its presence.
- The derived equality of `Player` and `GameState` (field by field, using the collection equality) is not modelled as a separate predicate. Decoded states are compared as Dafny values.
- `usize` bounds. The numbers parsed, a player digit and a talon of at most `12`, are far below any limit. `Text.ParseDecimal` accepts digits only: the `+` sign that `parse::<usize>` allows cannot occur in a capture.
- The dead `?` exits and range check listed above are proof obligations, not branches of the method; they are dead under ASCII case folding only. The king, teammate, talon, game-type and player-index reads cannot fail on what the patterns admit, and the functions that read them require exactly that.
- Game.ApplyCalls: this function, which specifies the calls phase, checks every character before setting any flag. The source's `collect::<Result<…>>` stops at the first invalid character instead. The method `Game.Announce` stops there too. In both cases the partly updated players are dropped with the error, so the results agree.
- Game.ExampleLine: the cards group of the line in game.rs's test `game_state_from_str` is not checked against the literal string. The lemma takes any cards field that the cards pattern matches. The cards pattern and the collection decoder are covered by `Patterns.CardsGroupComplete`, `Collections.FromStrSlots` and `Collections.LowerCaseExample`.
