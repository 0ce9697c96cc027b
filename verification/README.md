# The chess platform's core, modelled and proved in Dafny

The platform lets people (and an engine) play chess, stores every game, and streams the moves to
spectators. This project models the three parts of it in which a mistake would be hardest to see:

1. **The rules engine** (`pkg/chess`): attack detection, move generation, making a move, FEN, SAN,
   PGN and game outcomes.
2. **The move pipeline** (`pkg/store`, `pkg/eventlog`, `services/fanout`, `web/watch.js`): a move is
   committed together with an outbox row, relayed at least once to a per-game stream, read by one
   hub per game, and fanned out to spectators who may be dropped and resume.
3. **Small atomic state machines**: the game row of the game service, the hub manager, matchmaking,
   the token bucket, the opening book and the rating ledger.

Check the whole project with `dafny verify dfyconfig.toml`.

## What is proved

**Rules.** The code decides legality by casting rays *backwards* from the king but generates moves
*forwards* from the pieces. `Attack.IsAttacked` shows that the backward test finds exactly the
squares that some piece attacks in the forward sense, and `MoveGen.LegalMoves` that the generated
list is, for every board whatsoever, exactly the set of moves of a declarative rule relation
(`Rules.Legal`), with the multiplicity of each. `Invariant.ReachableIsSound` carries the position
invariant over all games: one king a side, no pawn on a back rank, every castling right backed by
king and rook, a truthful en-passant target, the side not to move never in check. On top of it: the
fields of every position are those that the history of the game calls for (`Laws`: en-passant
target, castling rights, move number, half-move clock), kings are never captured, en passant only
ever removes the enemy pawn, games played by the service are at most 12,900 plies long, the White
and Black rules are mirror images, SAN is injective on the legal moves and says what moves, where to
and with what effect (`Scoresheet`), movetext determines the game, FEN round-trips, equal repetition
keys mean equal play, and insufficient material is for ever.

**Pipeline.** `Relays` is a transition system of commits, fetches, appends (which may take effect
and still report an error), marks (which may be lost) and crashes of any number of relay loops;
`Relays.RelaySafe` holds over all its runs. `Pipeline` puts hubs and reconnecting spectators
on top of it, each hub tailing its stream by the last id it read; `Pipeline.SpectatorSeesPrefix` and
`Pipeline.SpectatorSeesAll` are the end-to-end safety and completeness theorems. `Manager` proves the hub manager's invariants under every
interleaving of its critical sections.

**Results where the code and its comments part ways.**

- `filterAfter` compares stream ids as strings and its comment calls them lexicographically
  ordered. That is false in general: in any millisecond, a client that saw the entry numbered 9 is
  never sent the one numbered 10 (`Hubs.ResumeLosesMove`). `StreamIds.TextOrderExact` says exactly
  when two ids sort as text in stream order, and `Hubs.StreamResumesIff` that every client of a stream
  resumes exactly if and only if this holds between any two of its ids. End to end,
  `MissedMove.NeverMissesIff` says for exactly which streams every run keeps every spectator's moves a
  prefix of the game: those where it holds between any two ids other than the last.
- A board with several kings of the side to move lists each castling move once per king, so "each
  move once" is false of arbitrary boards (`MoveList.TwoKingsListTwice`). `MoveGen.LegalMoves` states
  the exact multiplicity and when the list is free of duplicates; in every reachable position it is
  (`MoveList.ReachableListsOnce`).
- The comment on `InsufficientMaterial` speaks of a bishop on each side; the code also counts two
  bishops of one side on squares of one colour. `Outcome.DeadIff` states the difference and
  `Outcome.UndocumentedIsDead` gives a board.
- The comment on `squareColor` calls colour 0 light; a1, a dark square, has it
  (`Outcome.ColorsAlternate`). Only the equality of two colours matters to the code.
- The token bucket's bound on a window fails for some clocks that step back
  (`RateLimit.BackwardClockExceeds`). `RateLimit.WindowBoundIff` says for exactly which windows it
  holds, and `RateLimit.RiseBound` what holds for all. Keys expire on the server's clock while requests
  carry the callers' clock, so both need that a key expires only when its bucket is full by the
  callers' clock; idle time on the two clocks must agree. `RateLimit.HarmlessIff` shows that this is
  exactly when an expiry goes unnoticed, and `RateLimit.EarlyExpiryExceeds` what happens otherwise.
- `PGN` promises an error for an illegal move, but on a parseable board whose en-passant target has no
  square behind it, writing an illegal pawn move indexes outside the board (`Pgn.UnsafeTarget`).
  `Pgn.SafeIff` says exactly on which boards that cannot happen.
- An exact hand-over needs `from` to be empty or in the hub's history (`Hubs.HandoverExact` is an if
  and only if); after a failed preload the hub repeats moves (`Hubs.HandoverRepeats`). The end-to-end
  theorems drop repeated plies and so do not need the preload.
- Leaving the matchmaking queue is two commands, and a player that polls between them is left waiting
  without a start time (`Matchmaking.PollWhileLeaving`). `Matchmaking.StrandedIff` says exactly after
  which steps a player is in that state, and `Matchmaking.RunConsistent` exactly when the two entries
  agree.
- Rating deltas can cancel with unequal K-factors; `Ratings.CancelExactly` says when.

## Form of the model

Read-only Go code takes a board by value here, because a Go `[64]Piece` is a value and `Clone`
copies it; the one board that the engine changes in place, the clone inside `applyMoveUnchecked`, is
the class `Applying.Scratch` over an array. Loops are methods with invariants, each proved equal to a
function or a relation about which the theorems are then stated. Objects that the services mutate
(`Hubs.Hub`, `Hubs.Sub`, `Service.GameRow`, `Matchmaking.Matchmaker`, `RateLimit.Key`) are
classes. Concurrent parts are transition systems. Randomness, clocks, the engine's answer, stream
ids and the success of each database or stream call are parameters. Automatic induction is switched
off for every lemma it would apply to, so the written proof is the whole proof.

| file | module | what it holds |
|---|---|---|
| board, rules | Board, Rules | positions, piece geometry, the rule relation, the position after a move |
| attack, movegen, movelist, applying | Attack, MoveGen, MoveList, Applying | ray casting, move generation and how often a move is listed, making a move in place |
| invariant, laws, material, mirror | Invariant, Laws, Material, Mirror | the position invariant; the rules in other words, for squares and whole games; conservation and termination; colour symmetry |
| text, notation, fen, fencodec, lettering | Text, Notation, Fen, FenCodec, Lettering | number and field syntax, UCI moves, FEN as functions and as loops, and what their texts say |
| san, pgn, scoresheet | San, Pgn, Scoresheet | algebraic notation, movetext, and what a reader recovers from both |
| outcome, service | Outcome, Service | verdicts on positions; the stored game |
| streamid, eventlog, hub, manager | StreamIds, EventLog, Hubs, Manager | stream ids, event encoding, one hub, all hubs |
| relays, pipeline, missedmove | Relays, Pipeline, MissedMove | outbox and relays; the pipeline end to end; which streams let a move be missed |
| ratelimit, matchmaking, ratings, book | RateLimit, Matchmaking, Ratings, Book | the small state machines |

## Model

| member | source | states |
|---|---|---|
| `Board.Coordinates` | pkg/chess/board.go:82-87 | file, rank and index of a square determine one another |
| `Attack.CastRay` | pkg/chess/board.go:169-183 | one backward ray reports a hit iff the first piece it meets is the enemy slider or queen, also from the missing square -1 |
| `Attack.ClearReverse` | pkg/chess/board.go:168-184 | a line that is clear from attacker to target is clear from target to attacker |
| `Attack.MeetsIsClear` | pkg/chess/board.go:168-184 | what a backward ray meets has a clear forward line to the ray's origin |
| `Attack.ClearIsMet` | pkg/chess/board.go:168-184 | conversely, a piece with a clear forward line to a square is what the ray from that square meets |
| `Attack.SlidingAttack` | pkg/chess/board.go:168-184 | the test over a list of directions is true iff some ray of the list meets the slider or a queen |
| `Attack.PawnAttack` | pkg/chess/board.go:123-138 | the two separately coded pawn tests find exactly a pawn that stands where its own forward capture would reach the square |
| `Attack.LeapForward` | pkg/chess/board.go:110-115 | knights and kings found a listed step away are exactly those attacking by forward geometry |
| `Attack.AttackersByKind` | pkg/chess/board.go:120-164 | the tests by kind together cover every attacker there is |
| `Attack.IsAttacked` | pkg/chess/board.go:120-164 | true iff some piece of that colour attacks the square by forward geometry along a clear path; total on -1, the square of a missing king |
| `Attack.KingSquare` | pkg/chess/board.go:99-107 | the first square with that king, or -1 exactly when there is none |
| `Attack.InCheck` | pkg/chess/board.go:187-193 | true iff the side to move has a king and it is attacked |
| `MoveGen.GenStep` | pkg/chess/movegen.go:85-99 | exactly the steps of the list that stay on the board and off own pieces, each once |
| `MoveGen.GenRay` | pkg/chess/movegen.go:106-119 | exactly the stops of one ray up to and including the first enemy piece, each once |
| `MoveGen.GenSliding` | pkg/chess/movegen.go:102-122 | exactly the stops of all listed rays, each once |
| `MoveGen.SlideRuleIsPieceMoves` | pkg/chess/movegen.go:72-75 | the stops of a bishop's or rook's rays are exactly its moves by clear-line geometry |
| `MoveGen.AddPawnMove` | pkg/chess/movegen.go:171-179 | one move, or exactly the four promotions on the far rank |
| `MoveGen.GenPushes` | pkg/chess/movegen.go:134-149 | exactly the legal-geometry single and double pushes with their promotions |
| `MoveGen.GenTake` | pkg/chess/movegen.go:151-165 | exactly the diagonal captures to one side, en passant included, with their promotions |
| `MoveGen.GenPawn` | pkg/chess/movegen.go:125-167 | exactly the pawn moves of the rule relation from that square, each once |
| `MoveGen.GenWhiteCastling` | pkg/chess/movegen.go:185-203 | White's branch lists exactly White's castling moves of the rule relation, each once |
| `MoveGen.GenBlackCastling` | pkg/chess/movegen.go:204-220 | Black's separately coded branch does the same for Black |
| `MoveGen.GenCastling` | pkg/chess/movegen.go:183-222 | exactly the castling moves of the rule relation: right held, king and rook at home, nothing between, no square of the king's walk attacked |
| `MoveGen.GenFrom` | pkg/chess/movegen.go:64-79 | exactly the pseudo-legal moves of the piece, plus castling for a king, each once |
| `MoveGen.PseudoLegalMoves` | pkg/chess/movegen.go:56-82 | each pseudo-legal move exactly as often as the code lists it: once, or once per own king for castling |
| `MoveGen.LegalMoves` | pkg/chess/movegen.go:13-24 | for every board: the list holds precisely the legal moves of the rule relation; each with its exact multiplicity; free of duplicates iff there is at most one own king or no legal castling |
| `MoveList.SoundHasOneKing` | pkg/chess/movegen.go:56-82 | a sound board has exactly one king of the side to move |
| `MoveList.SoundListsOnce` | pkg/chess/movegen.go:13-24 | on a sound board the list holds every legal move exactly once and nothing else |
| `MoveList.ReachableListsOnce` | pkg/chess/movegen.go:13-24 | so it does in every position of every game from the start |
| `MoveList.TwoKingsListTwice` | pkg/chess/movegen.go:69-71 | with white kings on a1 and e1 and the right to castle, the castling move is listed twice |
| `MoveGen.VictimOnBoard` | pkg/chess/movegen.go:236-243 | a pseudo-legal en-passant capture never indexes outside the board, whatever target was parsed |
| `MoveGen.IsLegal` | pkg/chess/movegen.go:27-34 | membership in the list is legality |
| `MoveGen.ApplyMove` | pkg/chess/movegen.go:38-43 | the resulting position for a legal move, an error for any other |
| `Applying.Scratch.Clone` | pkg/chess/board.go:93-96 | the clone is a fresh board with the same position |
| `Applying.Scratch.UpdateCastlingRights` | pkg/chess/movegen.go:288-310 | in place, leaves exactly the rights of the specification: lost by a king move or a move touching a rook's home square |
| `Applying.Scratch.CastleRook` | pkg/chess/movegen.go:250-260 | in place, moves the rook of the castled wing |
| `Applying.Scratch.MovePieces` | pkg/chess/movegen.go:232-260 | in place, leaves exactly the squares of the specification, in the code's order of writes |
| `Applying.ApplyMoveUnchecked` | pkg/chess/movegen.go:225-285 | the step-by-step update of the clone is the position function that the laws below pin field by field |
| `Invariant.CastlingShape` | pkg/chess/movegen.go:250-260 | a two-file king move is recognised as castling exactly when it was generated as castling, and what it does to the squares |
| `Invariant.KingNeverTaken` | pkg/chess/movegen.go:232-260 | no pseudo-legal move of a sound position captures a king |
| `Invariant.EnPassantTakesPawn` | pkg/chess/movegen.go:236-243 | en passant removes the enemy pawn that has just advanced, and nothing else |
| `Invariant.EffectOf` | pkg/chess/movegen.go:232-260 | every pseudo-legal move of a sound position changes the squares in one of three exact ways |
| `Invariant.KingsKept` | pkg/chess/movegen.go:225-285 | each side keeps exactly one king |
| `Invariant.PawnsKept` | pkg/chess/movegen.go:225-285 | no pawn ever stands on a back rank |
| `Invariant.RightsKept` | pkg/chess/movegen.go:288-310 | every surviving castling right is still backed by king and rook at home |
| `Invariant.EnPassantKept` | pkg/chess/movegen.go:265-269 | a new en-passant target is empty, its origin square is empty, and the pushed enemy pawn stands beside it |
| `Invariant.LegalKeepsSound` | pkg/chess/movegen.go:225-310 | every legal move leads from a sound position to a sound one, the mover's king included |
| `Invariant.StartIsSound` | pkg/chess/fen.go:11-39 | the starting position is sound |
| `Invariant.ReachableIsSound` | pkg/chess/movegen.go:225-310 | every position of every game from the start is sound |
| `Laws.RookLaw` | pkg/chess/board.go:117-117 | a rook bears on the squares of its rank and file up to the first man in the way, said square by square |
| `Laws.BishopLaw` | pkg/chess/board.go:116-116 | a bishop bears on the squares of its two diagonals up to the first man in the way |
| `Laws.OtherPieceLaws` | pkg/chess/board.go:110-117 | a queen bears on what a rook or a bishop would; a king one step away, a knight two steps away on no common line, a pawn one rank up or down on a neighbouring file |
| `Laws.PawnsAdvance` | pkg/chess/movegen.go:125-149 | White's pawns go up the board and Black's down, two ranks only along a file and from the second rank of their side |
| `Laws.PawnsPromote` | pkg/chess/movegen.go:171-179 | a pawn becomes a queen, rook, bishop or knight on reaching the last rank, and nowhere else |
| `Laws.WhiteCastlingLaw` | pkg/chess/movegen.go:185-203 | e1g1 and e1c1 are castling exactly under the conditions on a1 to h1, square by square |
| `Laws.BlackCastlingLaw` | pkg/chess/movegen.go:204-220 | and e8g8 and e8c8 on a8 to h8 |
| `Laws.CastlingPlaces` | pkg/chess/movegen.go:250-260 | castling ends with king and rook on g1 and f1, c1 and d1, g8 and f8, or c8 and d8, and changes no other square but theirs |
| `Laws.MoverLands` | pkg/chess/movegen.go:232-248 | the mover leaves its square empty and stands on its destination, as the piece it promotes to if it does |
| `Laws.TargetIff` | pkg/chess/movegen.go:265-269 | after a move there is an en-passant target iff a pawn moved two ranks, and it is the square crossed |
| `Laws.EnPassantOffered` | pkg/chess/movegen.go:236-269 | an enemy pawn beside such a pawn then has a pseudo-legal move onto the square crossed, and that move removes it and nothing else |
| `Laws.NumbersOfGame` | pkg/chess/movegen.go:278-283 | after n plies of a game from the start White is to move iff n is even, and the full-move number is 1 + n / 2 |
| `Laws.ClockOfGame` | pkg/chess/movegen.go:271-276 | the half-move clock is the number of plies since the last pawn move or capture |
| `Laws.RightsOfPly` | pkg/chess/movegen.go:288-310 | a castling right survives a ply of a sound position iff it was held and the ply neither leaves the king's square nor leaves or enters the rook's |
| `Laws.RightsOfGame` | pkg/chess/movegen.go:288-310 | so in a game from the start a right is held iff no ply has ever done so |
| `Laws.CheckedIsHit` | pkg/chess/board.go:187-193 | a check is a man of the other side attacking a king of the side to move |
| `Laws.FirstMoves` | pkg/chess/movegen.go:13-24 | at the start White has exactly twenty legal moves: sixteen of pawns and four of knights |
| `Material.TotalAfter` | pkg/chess/movegen.go:232-260 | how any weight summed over the board changes with a move, captures, promotion, castling and en passant included |
| `Material.MenAfter` | pkg/chess/movegen.go:232-260 | a ply keeps the mover's men and costs the opponent exactly one iff it captures |
| `Material.MassAfter` | pkg/chess/movegen.go:271-276 | pieces plus ranks left to pawns falls with every pawn move or capture and is kept by every other move |
| `Material.RankingFalls` | pkg/chess/movegen.go:271-276 | 100 times that mass plus 100 minus the half-move clock falls strictly with every ply before the fifty-move rule |
| `Material.LengthBounded` | pkg/chess/outcome.go:42-44 | so the length of any game from a sound position is bounded by the measure |
| `Material.GamesEnd` | pkg/chess/outcome.go:42-44 | no game from the start outlasts 12,900 plies |
| `Mirror.ReflectionExists` | pkg/chess/board.go:72-80 | every position has a mirror image: ranks reversed, colours exchanged |
| `Mirror.AttackedMirrored` | pkg/chess/board.go:123-138 | attacks commute with the reflection |
| `Mirror.SquaresAfterMirrored` | pkg/chess/movegen.go:232-260 | moving the pieces commutes with the reflection |
| `Mirror.RightsMirrored` | pkg/chess/movegen.go:288-310 | so does the loss of castling rights |
| `Mirror.ApplyMirrored` | pkg/chess/movegen.go:225-310 | making any move commutes with the reflection, the full-move number aside |
| `Mirror.LegalMirrored` | pkg/chess/movegen.go:125-222 | a move is legal in a sound position iff its mirror image is legal in the mirrored one |
| `Mirror.GameMirrored` | pkg/chess/movegen.go:13-310 | a whole game is playable iff its mirror image is, and they end in mirrored positions |
| `Text.FieldsOfJoin` | pkg/chess/fen.go:43-46 | splitting space-joined words into fields gives the words back |
| `Text.SplitOfJoin` | pkg/chess/fen.go:50-53 | splitting at a separator undoes joining with it |
| `Text.AtoiOfItoa` | pkg/chess/fen.go:119-129 | a printed number within the integer range parses to itself |
| `Text.AtoiOfSigned` | pkg/chess/fen.go:119-129 | a sign before a number is read, within the integer range |
| `Text.AtoiTooLarge` | pkg/chess/fen.go:119-129 | a printed number parses iff it is within the integer range |
| `Notation.SquareNames` | pkg/chess/move.go:65-68 | the 64 names in full: files a to h along each rank, ranks 1 to 8 |
| `Notation.ParsedSquares` | pkg/chess/move.go:57-63 | a1 is square 0, the next file letter is the next square and the next rank digit eight squares on; any other character is refused |
| `Notation.SquareRoundTrip` | pkg/chess/move.go:57-68 | a square's name parses to the square |
| `Notation.CastlingNames` | pkg/chess/move.go:48-55 | the castling moves print as e1g1, e1c1, e8g8 and e8c8 |
| `Lettering.PromotionLetters` | pkg/chess/move.go:19-21 | promotion letters are the letters FEN has for those black pieces, and only knight, bishop, rook and queen have one |
| `Lettering.KingsPawnMove` | pkg/chess/move.go:25-46 | e2e4 is the move from square 12 to square 28 |
| `Notation.MoveRoundTrip` | pkg/chess/move.go:25-55 | parsing a printed move gives the move |
| `Notation.ParsedMovePrints` | pkg/chess/move.go:25-55 | every text that parses is the printed form of the move it parses to, so UCI text and moves are in bijection |
| `Fen.RankRoundTrip` | pkg/chess/fen.go:55-76 | parsing the printed text of a rank gives the rank, runs of empty squares included |
| `Fen.PlacementRoundTrip` | pkg/chess/fen.go:50-77 | parsing the printed placement gives all 64 squares back |
| `Fen.RightsRoundTrip` | pkg/chess/fen.go:89-105 | castling rights round-trip |
| `Fen.RoundTrip` | pkg/chess/fen.go:42-201 | ParseFEN(FEN(b)) = b for every well-formed board |
| `Fen.PrintInjective` | pkg/chess/fen.go:135-201 | different well-formed boards print differently |
| `Fen.ParsedIsWellFormed` | pkg/chess/fen.go:42-132 | everything that parses is well formed, so printing and parsing again changes nothing |
| `Fen.KeysAgree` | pkg/openingbook/book.go:25-31 | the space-counting repetition key and the field-splitting book key agree on every printed board |
| `Fen.KeyDeterminesPlace` | pkg/chess/outcome.go:77-88 | two boards have equal keys iff they differ at most in their clocks |
| `Fen.KeyDeterminesPlay` | pkg/chess/outcome.go:77-88 | boards with equal keys have the same legal moves, and equal keys after each of them |
| `FenCodec.WriteRank` | pkg/chess/fen.go:140-155 | the counting loop writes the specified text of a rank |
| `FenCodec.WritePlacement` | pkg/chess/fen.go:138-159 | the loop over ranks writes the specified placement |
| `FenCodec.WriteRights` | pkg/chess/fen.go:168-184 | the letters in their order, or a dash |
| `FenCodec.WriteFen` | pkg/chess/fen.go:135-201 | the printer writes the specified text |
| `FenCodec.ReadRank` | pkg/chess/fen.go:57-76 | the file-counting loop accepts and reads exactly the specified rank texts |
| `FenCodec.ReadPlacement` | pkg/chess/fen.go:50-77 | the loop over ranks accepts and reads exactly the specified placements |
| `FenCodec.ReadRights` | pkg/chess/fen.go:89-105 | letters in any order, repetitions allowed, anything else an error |
| `FenCodec.ReadFen` | pkg/chess/fen.go:42-132 | the parser accepts exactly the specified texts and reads the specified position |
| `FenCodec.StartText` | pkg/chess/fen.go:11-11 | the built-in starting text is the print of the starting position |
| `Lettering.LetterTable` | pkg/chess/fen.go:16-30 | the twelve piece letters, each read back as the piece it is written for |
| `Lettering.RankAccepted` | pkg/chess/fen.go:57-76 | a rank's text is accepted iff it consists of piece letters and digits that describe eight squares |
| `Lettering.RankSquares` | pkg/chess/fen.go:57-76 | each letter puts its piece, and each digit its empty squares, right after the squares described before it |
| `Lettering.PlacementAccepted` | pkg/chess/fen.go:50-77 | a placement is accepted iff it has eight such parts, which describe the ranks from the eighth down |
| `Lettering.RightsAccepted` | pkg/chess/fen.go:89-105 | a rights field is accepted iff it is a dash or letters of KQkq, and the rights held are those whose letter occurs |
| `Lettering.KingsPawnText` | pkg/chess/fen.go:135-201 | the text after 1. e4, character by character, with e3 as target and Black to move |
| `San.RivalsDiffer` | pkg/chess/san.go:62-93 | two pieces that can reach the same square are never given the same disambiguation |
| `San.PawnDetermined` | pkg/chess/san.go:33-43 | the text of a pawn move determines it in a sound position |
| `San.PieceDetermined` | pkg/chess/san.go:44-50 | the text of a piece move determines it among the legal moves |
| `San.SanInjective` | pkg/chess/san.go:14-54 | different legal moves of a sound position never have the same SAN |
| `Pgn.WriteCheckSuffix` | pkg/chess/san.go:96-105 | writes # iff the move gives check and leaves no legal reply, + iff it only checks |
| `Pgn.WriteDisambiguation` | pkg/chess/san.go:62-93 | the loops write file, rank or both exactly as the rivals require |
| `Pgn.WriteSan` | pkg/chess/san.go:14-54 | the printer writes the notation that is proved injective and readable |
| `Scoresheet.SignTold` | pkg/chess/san.go:96-105 | the text ends in # iff the move mates, and in + iff it gives a check that has a legal reply, mate and check said by attacks on the king |
| `Scoresheet.CastlingTold` | pkg/chess/san.go:20-27 | without its sign a text is O-O iff the king goes two files towards h, and O-O-O iff it goes two towards a |
| `Scoresheet.MoverTold` | pkg/chess/san.go:33-50 | otherwise it begins with the letter FEN has for that white piece, or for a pawn with the file it leaves |
| `Scoresheet.DestinationTold` | pkg/chess/san.go:33-50 | it ends with the name of the destination, followed only by = and the letter FEN has for the white piece a pawn becomes |
| `Scoresheet.CaptureTold` | pkg/chess/san.go:30-48 | it contains x iff the opponent loses a man |
| `Scoresheet.OriginTold` | pkg/chess/san.go:62-93 | the origin written singles the mover out among the pieces that may go there, and is nothing, the file, the rank or the square, in that order, as soon as that is enough |
| `Scoresheet.GameWritten` | pkg/chess/san.go:157-178 | in a game from the start ply i is written at its place, with its number and a dot before it iff White plays it |
| `Scoresheet.BlackBegins` | pkg/chess/san.go:161-169 | a game that begins with Black to move begins with its number and three dots |
| `Pgn.SafeIff` | pkg/chess/movegen.go:236-243 | any move, legal or not, can be made on a board without indexing outside it iff an empty en-passant target has its victim's square on the board or there is no pawn |
| `Pgn.UnsafeTarget` | pkg/chess/movegen.go:236-243 | a parseable board on which a2a1 cannot be made: a lone white pawn on a2, target a1 |
| `Pgn.PlayKeepsWritable` | pkg/chess/san.go:157-178 | legal play never brings up a board on which writing a move would index outside it |
| `Pgn.SoundIsWritable` | pkg/chess/san.go:157-178 | nor is any board of a game from the start such |
| `Pgn.GameDetermined` | pkg/chess/san.go:157-178 | two legal games from one position with the same token sequence are the same game with the same result |
| `Pgn.WrapMovetext` | pkg/chess/san.go:190-206 | wrapping keeps every token in order, one space apart; no line exceeds the width unless it is one token, and a line is broken only where the next token does not fit |
| `Pgn.WriteGame` | pkg/chess/san.go:157-178 | from any board on which no move indexes outside it: exactly the tokens of the game that the UCI strings denote; an error iff they denote no legal game |
| `Pgn.Movetext` | pkg/chess/san.go:130-186 | the wrapped text reads as the game's tokens and the words of the result; an error iff the strings denote no legal game |
| `Pgn.MovetextDetermines` | pkg/chess/san.go:130-206 | one text is the movetext of at most one legal game from a given start, with one result, when results are single words as the PGN tokens are |
| `Outcome.HasInsufficientMaterial` | pkg/chess/outcome.go:90-137 | the counting scan decides exactly the specified dead positions |
| `Outcome.DeadSpelled` | pkg/chess/outcome.go:90-137 | beside the kings there is nothing, or one knight or bishop, or two bishops whose file plus rank have one parity |
| `Outcome.ColorsAlternate` | pkg/chess/outcome.go:136-137 | neighbouring squares have different colours, there are two, and a1 has the colour 0 |
| `Outcome.DeadIff` | pkg/chess/outcome.go:90-137 | what the code decides is exactly the four documented cases, or two bishops of one side on squares of one colour |
| `Outcome.UndocumentedIsDead` | pkg/chess/outcome.go:90-137 | a board of the last kind: white bishops on c1 and e3 |
| `Outcome.DeadStaysDead` | pkg/chess/outcome.go:92-137 | a move from such a position leads to such a position: no promotion, no castling, bishops keep their square colour |
| `Outcome.DeadForever` | pkg/chess/outcome.go:92-137 | no sequence of legal moves brings mating material back |
| `Outcome.FindRepetitionKey` | pkg/chess/outcome.go:77-88 | the scanning loop finds the text before the fourth space, or all of it |
| `Outcome.HasThreefold` | pkg/chess/outcome.go:64-73 | the counting loop is true iff some key occurs at least three times in the history |
| `Outcome.ThreefoldIsCurrent` | pkg/chess/outcome.go:52-73 | although the whole history is searched, repetition first fires for the position just reached, at its third occurrence |
| `Outcome.JudgePosition` | pkg/chess/outcome.go:29-46 | the verdict in the code's order of tests; a win has reason Checkmate and no other verdict has; the winner is the side whose men attack the king of the side to move, which has no legal move |
| `Outcome.MateDecides` | pkg/chess/outcome.go:30-36 | every verdict of a win is a mate of the other side, and Checkmate is exactly the reason of the wins |
| `Outcome.MateIsSeen` | pkg/chess/outcome.go:30-38 | in a sound position every mate is a win for the other side, and no legal move without an attack on the king is a stalemate |
| `Outcome.FiftyMoveIff` | pkg/chess/outcome.go:39-46 | a game from the start is drawn by the fifty-move rule iff none of its last hundred plies was a pawn move or capture, a legal move is left and the material is not insufficient |
| `Outcome.JudgeWithHistory` | pkg/chess/outcome.go:52-60 | the board's own verdict first, then repetition |
| `Service.ReachableIsWellFormed` | services/game-service/internal/server/server.go:171-183 | every position the service can reach can be printed, its clocks staying in range |
| `Service.RecordedOnce` | services/game-service/internal/server/server.go:171-185 | storing one more legal move keeps the row an exact record: plies 1 to n, each FEN the print of the replayed position |
| `Service.ConsistentOnce` | services/game-service/internal/server/server.go:139-190 | storing a judged move keeps the row consistent: in progress iff the verdict on the replayed game is that it goes on, ended with that verdict otherwise, and a repetition is of the final position |
| `Service.RecordedIsBounded` | services/game-service/internal/server/server.go:151-185 | a stored game has at most 12,900 plies |
| `Service.StoredFenReplays` | services/game-service/internal/server/server.go:158-162 | the stored FEN parses to the position obtained by replaying all moves, so it is never corrupt |
| `Service.HistoryIsPositions` | services/game-service/internal/server/server.go:441-448 | entry i of the history is the text of the position after i plies, the first one that of the start |
| `Service.StoredWin` | services/game-service/internal/server/server.go:177-183 | a stored win that ended on the board is a mate of the other side |
| `Service.StartGoesOn` | pkg/chess/outcome.go:29-60 | the starting position has a legal move and no verdict ends it |
| `Service.BuildHistory` | services/game-service/internal/server/server.go:441-448 | the loop rebuilds the start and every stored position in order |
| `Service.Judge` | services/game-service/internal/server/server.go:171-180 | a text is turned into a judged position iff it names a legal move |
| `Service.GameRow.constructor` | services/game-service/internal/server/server.go:104-113 | a new game is the record of the empty game |
| `Service.GameRow.AppendMove` | pkg/store/store.go:230-269 | the transaction stores move, position and status, and the end reason iff the game ended, whatever the row's state |
| `Service.GameRow.Play` | services/game-service/internal/server/server.go:171-185 | a move is stored iff it parses, is legal and is committed, and the row stays consistent; otherwise nothing changes |
| `Service.GameRow.Admit` | services/game-service/internal/server/server.go:139-169 | between people a request is let through only from the White player after an even number of stored plies and only from the Black player after an odd one, and never once the game is over; which refusal says what; the position loaded is the replayed one |
| `Service.TurnByParity` | pkg/chess/movegen.go:278-283 | White is to move iff the number of plies is even |
| `Service.GameRow.SubmitMove` | services/game-service/internal/server/server.go:139-219 | for a request that is let through (by ply parity, as above), legal and committed, the game is extended by exactly the player's move, and by the engine's iff the game goes on against an engine that answers legally and is committed; a rejected request changes nothing; an engine failure leaves the player's move stored |
| `Service.GameRow.PlayEngineReply` | services/game-service/internal/server/server.go:223-246 | the engine's answer is stored iff it is a legal move and is committed |
| `Service.GameRow.Resign` | services/game-service/internal/server/server.go:277-328 | a participant ends a running game in the opponent's favour; the record of moves is untouched; a finished game keeps its result |
| `StreamIds.TextOrderExact` | services/fanout/internal/hub/hub.go:216-232 | two stream ids sort as text in stream order iff the leading digits of their first differing parts agree, for all ids |
| `StreamIds.SameWidthsAgree` | services/fanout/internal/hub/hub.go:216-232 | equal digit counts are sufficient |
| `StreamIds.TextOrderFails` | services/fanout/internal/hub/hub.go:216-232 | in every millisecond, the entry numbered 9 comes before the one numbered 10 in the stream and after it as text |
| `StreamIds.IdTextInjective` | services/fanout/internal/hub/hub.go:46-56 | different ids have different texts |
| `StreamIds.IdRoundTrip` | pkg/eventlog/stream.go:72-84 | an id handed back to the stream as text denotes the same id |
| `EventLog.EventRoundTrip` | pkg/eventlog/event.go:44-74 | every event the relay writes decodes to itself, so the reader skips none of them |
| `EventLog.IncreasingNext` | pkg/eventlog/stream.go:37-48 | appending under a fresh id keeps a stream's ids increasing |
| `EventLog.ReadNext` | pkg/eventlog/stream.go:72-94 | reading after the id of the n-th entry gives exactly the next entries, up to 128 |
| `Hubs.FilterAfter` | services/fanout/internal/hub/hub.go:219-232 | the loop keeps exactly the deltas whose id sorts after the given one as text, in order; all of them for an empty id |
| `Hubs.ResumeExactAt` | services/fanout/internal/hub/hub.go:219-232 | resuming from one entry gives exactly what follows it iff all later ids sort after its id as text and no earlier one does |
| `Hubs.ResumeExactIff` | services/fanout/internal/hub/hub.go:219-232 | every client resumes exactly iff the history's ids sort as text |
| `Hubs.SortedIffDigits` | services/fanout/internal/hub/hub.go:219-232 | a stream's ids sort as text iff the digit condition holds between any two of them |
| `Hubs.StreamResumesIff` | services/fanout/internal/hub/hub.go:216-232 | so every client of a stream resumes exactly iff the digit condition holds |
| `Hubs.ResumeAhead` | services/fanout/internal/hub/hub.go:219-232 | a client ahead of the history is sent nothing |
| `Hubs.ResumeLosesMove` | services/fanout/internal/hub/hub.go:227-227 | otherwise a move can be lost: in every millisecond a client that saw entry 9 is not sent entry 10 |
| `Hubs.Sub.Offer` | services/fanout/internal/hub/hub.go:154-162 | a delta is queued, or the subscriber is kicked exactly when its buffer of 256 is full |
| `Hubs.Sub.Receive` | services/fanout/internal/server/server.go:97-100 | taking a delta off the channel keeps what was received and what is queued together exactly what was broadcast |
| `Hubs.Hub.LoadHistory` | services/fanout/internal/hub/hub.go:170-182 | history is the replayed entries, or empty after a failed replay; either way the returned id is that of the last entry loaded |
| `Hubs.Hub.Tail` | services/fanout/internal/hub/hub.go:193-213 | one round of the tailing loop reads up to 128 entries after the last id and broadcasts them: history stays the first entries of the stream, the last id the id of its end, and whoever had room stays attached |
| `Hubs.Hub.Attach` | services/fanout/internal/hub/hub.go:117-128 | the new subscriber starts with what it missed and follows the history from there |
| `Hubs.Hub.Detach` | services/fanout/internal/hub/hub.go:131-139 | only that subscriber goes, the gauge counts a removal once, and emptiness is reported exactly |
| `Hubs.Hub.Broadcast` | services/fanout/internal/hub/hub.go:150-165 | the history grows by the delta, every remaining subscriber has it queued, and exactly those with full buffers are kicked and counted off |
| `Hubs.HandoverExact` | services/fanout/internal/hub/hub.go:117-165 | backlog followed by live deltas is the history after `from`, with no gap, duplicate or reordering, iff the hub had that entry when the client attached; otherwise it is all that was broadcast since |
| `Hubs.HandoverRepeats` | services/fanout/internal/hub/hub.go:117-165 | a client that attached before the hub had read anything is sent the whole history, whatever it had seen |
| `Hubs.ResumeAfterFailedPreload` | services/fanout/internal/hub/hub.go:170-175 | so after a failed preload, attaching and one round of tailing, a client that had seen an entry is sent the stream from its first entry |
| `Hubs.HandoverFresh` | services/fanout/internal/hub/hub.go:117-165 | for a client that has seen nothing it is the whole history |
| `Manager.StepKeeps` | services/fanout/internal/hub/manager.go:38-85 | each critical section keeps the manager's invariant |
| `Manager.ManagerSafe` | services/fanout/internal/hub/manager.go:38-85 | under every interleaving a hub with subscribers is the registered one and not cancelled, no hub is cancelled twice, and both gauges equal the true counts |
| `Manager.NoHubLeaks` | services/fanout/internal/hub/manager.go:66-85 | when every session has ended, no hub is registered and each was cancelled exactly once |
| `Manager.SectionsEnabled` | services/fanout/internal/hub/manager.go:66-85 | a session inside Unsubscribe can always go on |
| `Relays.NextIsDue` | pkg/eventlog/relay.go:81-112 | the row a relay appends next is at most one ply ahead of its game's stream, whatever other relays did |
| `Relays.FetchedOk` | pkg/store/outbox.go:28-53 | a fetched batch passes over no earlier unpublished row of a game |
| `Relays.FetchSize` | pkg/store/outbox.go:28-53 | a fetch returns all unpublished rows, or the two hundred oldest |
| `Relays.StepKeeps` | pkg/eventlog/relay.go:81-112 | commits, fetches, appends, marks and crashes each keep the invariant |
| `Relays.RelaySafe` | pkg/eventlog/relay.go:40-112 | over every run of any number of relays: published rows are downward closed in ply, every published row is on the stream, first occurrences on a stream are a gapless prefix of the committed moves, and stream ids increase |
| `Relays.PublishRows` | pkg/eventlog/relay.go:90-106 | the loop appends rows in order up to the first failure |
| `Relays.DrainOnce` | pkg/eventlog/relay.go:81-112 | one cycle is a run of the transition system: it marks exactly the rows appended before the first failure, and reports an error iff an append or the mark failed |
| `Pipeline.ResumePoint` | services/fanout/internal/server/server.go:75-93 | what a hub sends first is exactly what follows the client's last id, or nothing if the client is ahead |
| `Pipeline.FeedKept` | services/fanout/internal/hub/hub.go:186-214 | reading batches after its last id, a hub keeps its history a prefix of the stream, its last id the id of the end of that prefix, and its unbroadcast batch the entries that follow |
| `Pipeline.StepKeeps` | services/fanout/internal/server/server.go:75-102 | every step of the pipeline keeps the stores' and the hubs' invariants |
| `Pipeline.SpectatorKept` | services/fanout/internal/server/server.go:75-102 | every step keeps a spectator's view sound while its own game's ids sort as text, the last one aside |
| `Pipeline.SpectatorSeesPrefix` | web/watch.js:96-122 | over every interleaving of commits, failing relays, hub reads, drops and reconnects, what a spectator received, repeated plies dropped, is a prefix of the game's committed moves, given the digit condition on that game's ids, the last one aside |
| `Pipeline.SpectatorSeesAll` | web/watch.js:96-122 | and once rows are published, read and delivered, it is all of them |
| `Pipeline.SameWidthsSort` | services/fanout/internal/hub/hub.go:216-232 | in every reachable state a stream whose ids keep their digit counts satisfies the digit condition |
| `MissedMove.NeverMissesIff` | web/watch.js:96-122 | for every stream without repeated plies that is exact: all runs that end with it keep the prefix for all its spectators iff the digits agree between any two ids other than the last |
| `MissedMove.SpectatorMissesMove` | web/watch.js:96-122 | so whenever twelve plies or more fall into one millisecond, some run misses one |
| `RateLimit.RiseBound` | pkg/redisx/ratelimit.go:26-59 | in any window, whatever the callers' clock does, at most capacity + rate times how far it rises requests pass, expired keys included, as long as only buckets full by that clock expire |
| `RateLimit.WindowBound` | pkg/redisx/ratelimit.go:26-59 | so at most capacity + rate times the window's length pass when the clock does not rise, or rises no further than from first to last request |
| `RateLimit.WindowBoundIff` | pkg/redisx/ratelimit.go:26-59 | that is exact: the bound holds for every limiter, every past and every such expiry iff the window is of this kind |
| `RateLimit.NonDecreasingIsSteady` | pkg/redisx/ratelimit.go:43-45 | a clock that never steps back satisfies the condition |
| `RateLimit.IdleIsFull` | pkg/redisx/ratelimit.go:54-56 | a bucket idle for its time to live is full again |
| `RateLimit.TimeToLiveIs` | pkg/redisx/ratelimit.go:54-56 | the time to live exceeds the time to refill by one second, rounded up to the millisecond |
| `RateLimit.RightlyIsFull` | pkg/redisx/ratelimit.go:54-56 | a key idle for its time to live by the callers' clock holds a full bucket |
| `RateLimit.ForgettingIsInvisible` | pkg/redisx/ratelimit.go:26-59 | a limiter whose full buckets expire answers exactly as one that never forgets |
| `RateLimit.GrantedIsTrues` | pkg/redisx/ratelimit.go:26-59 | the requests granted are the positive answers |
| `RateLimit.HarmlessIff` | pkg/redisx/ratelimit.go:54-56 | losing a bucket changes no later answer, whatever requests follow, iff it would be full by the callers' clock |
| `RateLimit.FullBurst` | pkg/redisx/ratelimit.go:26-59 | a caller without a bucket gets a burst of the capacity at once |
| `RateLimit.EarlyExpiryExceeds` | pkg/redisx/ratelimit.go:54-56 | a key that expires on the server's clock before its bucket is full by the callers' clock breaks the bound even for a steady window |
| `RateLimit.BackwardClockExceeds` | pkg/redisx/ratelimit.go:43-45 | with a clock that steps back the bound fails |
| `RateLimit.Key.Allow` | pkg/redisx/ratelimit.go:26-59 | the script refills, decides, spends and stores as specified |
| `Matchmaking.Matchmaker.TryPair` | pkg/redisx/matchmaking.go:58-109 | pairs with the first nearest mutually acceptable candidate and removes both, or enqueues the caller iff there is none, keeping an earlier start time; each of the two accepts the gap: 100 at once, each further point up to 800 after 20 ms more |
| `Matchmaking.BandIs` | pkg/redisx/matchmaking.go:36-44 | a gap of at most 100 is accepted at once, and one of 100 + 50 s, up to 800, exactly from s seconds on |
| `Matchmaking.WaitBegins` | pkg/redisx/matchmaking.go:58-109 | whoever is not paired waits under the rating polled with, since now or since it first began, and nobody else is concerned |
| `Matchmaking.Matchmaker.Leave` | pkg/redisx/matchmaking.go:155-167 | its two commands, undisturbed, remove exactly that player |
| `Matchmaking.StrandedIff` | pkg/redisx/matchmaking.go:155-167 | over every run, whatever runs between the two commands of leaving: a player is in the queue without a start time iff it began to wait with a leaving under way whose second command has run since |
| `Matchmaking.LeftoverIsLeaving` | pkg/redisx/matchmaking.go:155-167 | a start time without a place in the queue is seen only while the player is leaving |
| `Matchmaking.RunConsistent` | pkg/redisx/matchmaking.go:155-167 | whenever no leaving is under way, a player has a start time exactly when it waits, iff none of its leavings has overtaken its last poll |
| `Matchmaking.PollWhileLeaving` | pkg/redisx/matchmaking.go:155-167 | a player that does poll in between is left waiting without a start time |
| `Matchmaking.PairingIsFair` | pkg/redisx/matchmaking.go:58-109 | a pairing joins two different players within both bands at the least gap, takes both out, and disturbs nobody else |
| `Matchmaking.WaitersApart` | pkg/redisx/matchmaking.go:58-109 | over every run, of any two players waiting, the one that polled last found the other already waiting at its present rating, and one of them did not accept the other |
| `Matchmaking.NobodyWaitsForever` | pkg/redisx/matchmaking.go:58-109 | two players within 800 points who have both waited 14 s cannot both stay waiting after either polls |
| `Ratings.Tiers` | pkg/rating/elo.go:27-38 | K is 40 up to 29 games, then 20 up to a rating of 2399 and 10 from 2400 |
| `Ratings.Rounded` | pkg/rating/elo.go:61-67 | rounding gives the nearest integer, and of two the one farther from zero |
| `Ratings.UpdateIsNearest` | pkg/rating/elo.go:49-67 | each delta is the nearest integer to K times the points scored above expectation |
| `Ratings.UpdateBounds` | pkg/rating/elo.go:27-67 | no delta exceeds K, winners never lose and losers never gain |
| `Ratings.CancelExactly` | pkg/rating/elo.go:49-67 | the deltas cancel iff the K-factors are equal or both round the surprise to the same number of points, given as bounds on the surprise |
| `Ratings.UnequalFactors` | pkg/rating/elo.go:49-67 | with K 40 and 20 an even draw cancels and an even win does not |
| `Ratings.LedgerBalances` | pkg/store/history.go:144-192 | under any interleaving of rating transactions and retries, with deltas computed from whatever ratings were read: each game is scored at most once, only if rated and over, no recorded delta exceeds 40, and every rating is 1200 plus the recorded deltas |
| `Book.Choose` | pkg/openingbook/book.go:116-141 | for any weights, negative ones included: the first move at which the running total exceeds the draw; the fallback is never used for a positive total |
| `Book.ShareSize` | pkg/openingbook/book.go:116-141 | without negative weights each move is picked by exactly as many draws as its weight |
| `Book.PicksOne` | pkg/openingbook/book.go:116-141 | each draw picks one move |
| `Book.AddLine` | pkg/openingbook/book.go:72-88 | a line is accepted iff all its moves parse and are legal, and adds one for each position that plays the move |
| `Book.CountLines` | pkg/openingbook/book.go:70-88 | succeeds iff every line is legal, and counts for each key and move the line positions that played it |
| `Book.ListMoves` | pkg/openingbook/book.go:92-103 | the list holds each counted move once with its weight, heaviest first and then by text |
| `Book.ListUnique` | pkg/openingbook/book.go:96-103 | there is only one such list, so the book does not depend on the order in which the map is walked |
| `Book.Build` | pkg/openingbook/book.go:70-106 | succeeds iff every line is legal; each key that is played from has its sorted list, with weight the number of line positions that played the move |
| `Book.Consult` | pkg/openingbook/book.go:116-141 | a move iff the key is in the book, and it is the one the draw picks |
| `Book.PlayedIsLegal` | pkg/openingbook/book.go:70-106 | a move counted for a key is legal in every position with that key |
| `Book.BookMovesAreLegal` | pkg/openingbook/book.go:70-141 | so every move of a built book is legal in every position sharing its key |
| `Book.DrawnIsLegal` | pkg/openingbook/book.go:70-141 | whatever a built book draws for a printed position is legal there, from a positive total, with as many draws as line positions that played it |

## Left out

- Mirror.LegalMirrored: asks for a sound position, because on a board without a king, or with several, the king scan starts at a1 and is not symmetric.
- Pgn.Movetext: asks that no move index outside the start's board, without which the Go code panics on some input (Pgn.SafeIff); the tag section and its map-ordered extras are not modelled.
- Pgn.WriteGame: asks the same of its start.
- Applying.ApplyMoveUnchecked: asks that the pawn taken en passant be on the board; the Go code would index out of range otherwise, and no generated move does.
- Book.Build: asks that lines be short enough for the move number to fit an integer; the library's sort is modelled by insertion, and JSON encoding and the random source are not modelled.
- Book.ShareSize: does not cover the negative weights that only a hand-written JSON book could carry; Book.Choose does.
- Ratings.UpdateBounds: the exponential inside Expected is an arbitrary real strictly between 0 and 1; rounding is exact on reals.
- Ratings.LedgerBalances: the ratings and game counts a transaction reads are arbitrary, since they may already be stale.
- Matchmaking.Matchmaker.Leave: states the undisturbed case; what happens when others run between its two commands is in Matchmaking.RunConsistent. Expiry of the queue keys and the re-queueing after a failed game creation are not modelled.
- RateLimit.ForgettingIsInvisible: expiry is given as which requests found their key expired; the server's clock itself is not modelled.
- RateLimit.Key.Allow: a rate of zero or less, which switches the limiter off, and requests let through because Redis failed are not modelled.
- Relays.DrainOnce: describes one cycle without interference; interference by other relays and crashes is in the transition system of Relays.
- Service.GameRow.Resign: a failing database update, which changes nothing, is not distinguished.
- Each request to the game service is one step per game; races of two requests on one game are not modelled, because AppendMove does not check that the game is still in progress.
- Joining a game, clocks, sessions, engine search, analysis, archiving and rating calls made after a move.
- Piece and castling bit packing: pieces are datatypes and rights are booleans; integer wrap-around of the clocks beyond the parser's range.
- Error values carry no message; all parse errors are one.
- A stream entry that does not decode cannot come from the relay (EventLog.EventRoundTrip), so the skipping of such entries is not modelled.
- Web sockets, write time-outs, blocking reads and back-off: only the order of messages and the ends of connections are modelled, at any point.
- Kafka, object store, gRPC, GraphQL, telemetry, authentication, the win-percentage curves and the Erlang session manager.
- That no position with insufficient material is mate.
