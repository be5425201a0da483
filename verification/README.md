# Verified model of the shahboard chess platform

A Dafny model of the parts of shahboard that carry state: the chess rules engine of the browser, the game
service with its cache and disconnection tracker, the move-approval protocol between server and viewers, the
matchmaking engine, the rating service, the SQL query writer and the board widget. `dafny verify dfyconfig.toml`
checks everything.

## How it is laid out

Code that changes things in place is modelled by classes and methods (`Engine.Chessboard`, the classes of
`GameService`, `Matchmaking.Engine`, `Ratings.RatingService`, `MoveLog.Viewer`, `WidgetPlay.Display`). Each method is tied to a function
on values that gives its whole effect, and the properties are proved of those functions: over one step, over two
steps that undo each other, and over all runs.

| files | what they hold |
|---|---|
| `Board`, `Attack` | the 0x88 board, the two attack tables as printed, and why they decide the direct definition of attack |
| `Rules`, `Invariant` | making and taking back a move, well-formed positions, and that moves keep them |
| `Generation`, `Distinctness`, `Play` | the generator, that it is exact and free of repetitions, legal moves, runs |
| `Castling`, `Pawns`, `Opening` | when castling is allowed, how pawns move, and the moves of the starting position |
| `Bookkeeping` | what the cached counters, the en-passant square and the castling rights mean on any run |
| `Replay` | systems whose moves can be undone: runs, rewinding, transcripts, lines of play, for any such system |
| `San`, `Fen`, `Text` | the two printer and parser pairs and the text operations they borrow |
| `Spelling`, `FenVerdict` | the text of a move and what is accepted as a FEN text, read off character by character |
| `Repetition`, `Material`, `Start` | threefold repetition, insufficient material, the starting position |
| `Engine` | the rules engine as an object over an array |
| `Lifecycle`, `GameService`, `Record` | handlers and ticker on values, the same as objects, and the stored form of a game |
| `Outcomes`, `MoveLog` | endings and approvals as the rules have them, and the replicated move list |
| `Matchmaking`, `Bands`, `Elo`, `Ratings`, `Standings` | queues and matching, rating arithmetic, ratings over a stream of games, and that the game service supplies such streams |
| `Query`, `QueryMeaning` | placeholder numbering, and what the text selects |
| `WidgetFen`, `WidgetMoves`, `WidgetPlay` | the widget's FEN text, which animations it computes, and how they are played |
| `Shown` | that engine and widget print and read the same boards |
| `Ids`, `Basics` | how object ids are compared; optional values and a few facts about sequences |

A position is *well formed* when each side has exactly one king and the cache points at it, no pawn stands on an
end rank, castling flags are backed by king and rook at home, a set en-passant square is empty, on the right rank
and before an enemy pawn, and the side not to move is not attacked. Positions are required to be well formed only
at the start of a game; every run keeps them so.

## Where the code does less than one might expect

- Cancelling a match request removes the first request of the same user at the same level. After the request was
  answered and its user asked again, that is the newer request (`Matchmaking.CancelMeans`,
  `Matchmaking.CancelHitsNewer`).
- After a claimed or agreed draw the cached copy of a game is still marked active; after every other ending it is
  not (`Lifecycle.RunsTellStatus`, `Lifecycle.AgreedDrawStaysActive`).
- The tick forgets every game somebody left before the limit. If no earliest leaver plays in the game, the game goes
  on and a player who left later is no longer watched; if some do and some do not, it depends on the order in which
  a map is read (`Lifecycle.TickForgets`, `Lifecycle.SureToEnd`, `Lifecycle.StrangerShields`).
- A stored game does not contain a standing draw offer: a reloaded game has lost it (`Record.StoredGameReloads`).
- A rating event without a result counts as played and is recorded as a draw, but not counted as drawn
  (`Ratings.PlayedAddsUp`). The game service never publishes such an ending (`Lifecycle.RunsEndOnce`).
- A filter with an unknown operator adds no condition. If all are unknown, and only then, the text has an empty WHERE
  (`Query.NothingMeant`, `Query.EmptyWhere`, `Query.UnknownOperator`). A list operator with no values writes an empty
  list, `p IN ()` (`Query.EmptyListWritten`).
- A loaded position need not be one of a game: texts without a king, with two kings or with pawns on end ranks are
  accepted, a second king of a colour being left off the board (`Fen.LoadableExactly`).

## Model

| member | source | states |
|---|---|---|
| Board.OffBoardIsOutside | frontend/assets/js/chess.js:549-549 | over every index an offset can reach, the mask test `i & 0x88` is exactly "not one of the 64 squares" |
| Attack.AttackEntry | frontend/assets/js/chess.js:71-88 | every entry of the printed table ATTACKS is the mask computed from the displacement it stands for |
| Attack.MaskIsShape | frontend/assets/js/chess.js:71-88 | that mask has the bit of a piece kind exactly if a piece of that kind connects squares so far apart on an empty board |
| Attack.RayEntry | frontend/assets/js/chess.js:90-106 | every entry of the printed table RAYS is the unit step back along its displacement, on the eight lines, and 0 elsewhere |
| Attack.PawnTable | frontend/assets/js/chess.js:736-744 | for a pawn the attack bit and the sign test decide whether it captures on the square |
| Attack.LeaperTable | frontend/assets/js/chess.js:736-747 | for knight and king the attack bit alone decides whether they reach the square |
| Attack.SliderTable | frontend/assets/js/chess.js:736-761 | for a slider the attack bit plus a walk along the table ray with nothing between decide whether it reaches the square, for some offset and any number of steps |
| Engine.Chessboard.Hits | frontend/assets/js/chess.js:732-761 | table lookup, pawn sign test and blocked walk for one piece decide whether it bears on the square |
| Engine.Chessboard.Attacked | frontend/assets/js/chess.js:721-766 | the table-driven scan answers true exactly if some piece of the colour bears on the square by the direct definition (pawn diagonal, leap, or clear ray), on every board |
| Engine.Chessboard.IsKingAttacked | frontend/assets/js/chess.js:768-770 | king attack is the attack test on the cached king square |
| Play.CapturesAreAttacked | frontend/assets/js/chess.js:572-604 | every pseudo-legal capture lands on a square that the attack test reports |
| Engine.Chessboard.MakeMove | frontend/assets/js/chess.js:882-975 | in-place making of a move: the whole new state is `Made` of the old one and one entry is pushed on the history |
| Engine.Chessboard.UndoMove | frontend/assets/js/chess.js:977-1025 | popping an entry restores the state `Undone` describes; with an empty history nothing changes |
| Rules.UndoRestores | frontend/assets/js/chess.js:882-1025 | for every sound position and every pseudo-legal move (promotion, en passant, both castlings, captures) undoing after making restores board, kings, turn, rights, en-passant square and both counters exactly |
| Invariant.MadeSquares | frontend/assets/js/chess.js:887-920 | what stands on each single square after a move, square by square |
| Invariant.NoKingCaptured | frontend/assets/js/chess.js:572-604 | in a well-formed position no pseudo-legal move captures a king |
| Invariant.MoveKeepsSound | frontend/assets/js/chess.js:882-975 | every pseudo-legal move of a well-formed position keeps: one king a side where the cache says, no pawn on an end rank, castling flags backed by king and rook at home, en-passant square empty before an enemy pawn |
| Invariant.LegalIffWellFormedAfter | frontend/assets/js/chess.js:652-662 | a pseudo-legal move is legal exactly if the position after it is well formed |
| Generation.GeneratedIffPseudoLegal | frontend/assets/js/chess.js:505-643 | the generator lists a move exactly if it is pseudo-legal by the square-by-square rules (and starts on the asked square, when one is given) |
| Generation.CastleMember | frontend/assets/js/chess.js:607-643 | the castling part lists exactly the pseudo-legal castlings |
| Castling.CastlingListed | frontend/assets/js/chess.js:607-643 | castling is listed as legal exactly if the right is held, the squares between king and rook are empty, and none of the squares the king leaves, passes and reaches is attacked; it is then the king's two-square move from home |
| Castling.CastlingIsSafe | frontend/assets/js/chess.js:619-638 | whoever castles legally is not in check, and the king could also legally step to the square it passes |
| Pawns.PawnMoves | frontend/assets/js/chess.js:559-583 | in the names of squares: a pawn goes one rank ahead, along its file or capturing on a neighbouring one, two only from its own second rank, and turns into another piece exactly on the last rank |
| Pawns.TakenInPassing | frontend/assets/js/chess.js:890-897 | in passing it takes the enemy pawn beside it |
| Pawns.PromotionsComplete | frontend/assets/js/chess.js:506-519 | whoever may promote may choose among queen, rook, bishop and knight, and nothing else |
| Distinctness.PseudoMovesDistinct | frontend/assets/js/chess.js:505-643 | no two generated moves share origin, destination and promotion |
| Distinctness.KeyDeterminesMove | frontend/assets/js/chess.js:1654-1664 | origin, destination and promotion determine a pseudo-legal move |
| Play.LegalMovesExact | frontend/assets/js/chess.js:652-662 | the filtered list holds exactly the legal moves (of the asked square), each once |
| Engine.Chessboard.GenerateMoves | frontend/assets/js/chess.js:505-663 | the generator on the live state returns that list and leaves board and history unchanged, though it makes and undoes every move |
| Engine.Chessboard.TryMove | frontend/assets/js/chess.js:655-659 | making, testing and undoing one move changes nothing and tells whether the move is legal |
| Play.ChessIsLawful | frontend/assets/js/chess.js:882-1025 | legal moves lead from well-formed to well-formed positions, are generated once each, and are undone exactly |
| Play.RunsStayWellFormed | frontend/assets/js/chess.js:1628-1691 | on every run of move and undo requests from a well-formed position: always well formed, the side that just moved is never in check, no king was ever captured |
| Bookkeeping.RecordsMean | frontend/assets/js/chess.js:882-975 | on every run the cached records can be read off the moves: turn and move number by counting, half moves since the last pawn move or capture, the en-passant square as the one a pawn just passed, each castling right as held at the start and spoilt by no move since |
| Replay.RunKeepsConsistent | frontend/assets/js/chess.js:870-1025 | on every run the history is one of legal moves, each entry undoing the move after it |
| Replay.UndosRewind | frontend/assets/js/chess.js:1688-1691 | k undo requests rewind exactly the last k moves |
| Start.StartIsWellFormed | frontend/assets/js/chess.js:52-53 | the starting position is well formed |
| Start.StartIsPrinted | frontend/assets/js/chess.js:52-53 | the default text is what the starting position prints as, character by character |
| Start.DefaultIsStart | frontend/assets/js/chess.js:172-180 | so loading the default text gives exactly the starting position |
| Opening.TwentyMoves | frontend/assets/js/chess.js:505-663 | the legal moves of the starting position are the one and two steps of every pawn and two leaps of each knight, and no other |
| Engine.Chessboard.constructor | frontend/assets/js/chess.js:172-180 | a new board loads its text; without one it is in the starting position and ready for play |
| Engine.Chessboard.MoveByFields | frontend/assets/js/chess.js:1650-1677 | a move object is played if a legal move has its squares and promotion, and otherwise refused with the state unchanged |
| Engine.AskedIsUnique | frontend/assets/js/chess.js:1654-1664 | at most one legal move answers a move object |
| Engine.Chessboard.MoveBySan | frontend/assets/js/chess.js:1648-1677 | a move text is played if it names a legal move, and otherwise refused with the state unchanged |
| Engine.Chessboard.Undo | frontend/assets/js/chess.js:1688-1691 | the public undo is the exact inverse of the last move played |
| San.TextInjective | frontend/assets/js/chess.js:675-719 | with the disambiguator, stripped move texts of legal moves differ whenever the moves differ |
| San.SanRoundTrip | frontend/assets/js/chess.js:1110-1151 | for every legal move of every well-formed position, parsing its printed text, with its own or any other decoration, gives that move back |
| Spelling.MarkIsRight | frontend/assets/js/chess.js:703-709 | the text of a move ends in # exactly if the enemy king is attacked and no reply is legal, in + exactly if it is attacked and some reply is legal, and holds these marks nowhere else |
| Spelling.Spelled | frontend/assets/js/chess.js:675-715 | the text letter by letter: castling, or pawn file and x for a capture, square and promotion, or piece letter, origin, x exactly for a capture, and square; then the mark |
| Spelling.OriginIsShortest | frontend/assets/js/chess.js:1028-1078 | the origin part fits no other legal move of a like piece to the square, no shorter description does, and the file is preferred to the rank |
| Engine.Chessboard.GetDisambiguator | frontend/assets/js/chess.js:1028-1078 | the counting loop over the legal moves yields the disambiguator and leaves the state unchanged |
| Engine.Chessboard.SanOf | frontend/assets/js/chess.js:675-715 | printing a move makes and undoes it for the check mark and leaves the state unchanged |
| Engine.Chessboard.FindSan | frontend/assets/js/chess.js:1128-1150 | the first legal move whose stripped text matches, state unchanged |
| Engine.Chessboard.History | frontend/assets/js/chess.js:1722-1745 | rewinding and replaying the whole history lists the move texts and leaves the state unchanged |
| San.HistoryReplays | frontend/assets/js/chess.js:1722-1745 | feeding those texts to the parser from the first position reaches the same game |
| Replay.TranscriptReplays | frontend/assets/js/chess.js:1722-1745 | the same for any lawful system whose reader undoes its writer, by induction on the history |
| Engine.Chessboard.ValidateFen | frontend/assets/js/chess.js:260-348 | the validator returns the number of the first failing criterion, or 0 |
| FenVerdict.RowVerdict | frontend/assets/js/chess.js:313-338 | the verdict on a row by index: 9 or 8 for its first offending character, an unknown one or a digit behind a digit; 10 if none offends but the widths do not add up to 8; else 0 |
| FenVerdict.AcceptedExactly | frontend/assets/js/chess.js:260-348 | a text is accepted exactly if it has six fields: eight well-filled rows, a side, some of KQkq in order or a dash, a dash or an en-passant square behind a pawn of the other side, and two numbers that are not too small |
| FenVerdict.Reported | frontend/assets/js/chess.js:276-305 | which of the numbers 1 to 6 is reported, by the first field that fails in the order of the tests |
| FenVerdict.BoardReported | frontend/assets/js/chess.js:307-346 | number 7 for the count of rows, then the verdict on the first bad row, then 11 for the side of the en-passant square |
| Engine.Chessboard.PrintFen | frontend/assets/js/chess.js:350-401 | the in-place scan prints the six fields of the position |
| Engine.Chessboard.LoadFen | frontend/assets/js/chess.js:202-253 | loading refuses with the old state untouched, or fills a fresh board with what the text says |
| Engine.Chessboard.PutPiece | frontend/assets/js/chess.js:435-469 | put refuses a second king of a colour and otherwise sets square and king cache |
| Fen.FenRoundTrip | frontend/assets/js/chess.js:202-401 | for every loadable position, well formed or not, the printed text is valid and loading it rebuilds board, kings, turn, rights, en-passant square and counters |
| Fen.LoadableExactly | frontend/assets/js/chess.js:202-253 | some text loads a position exactly if it is loadable: nothing off the board, each king cache empty for want of a king or at the only king, the en-passant square on the rank that fits the turn, counters in range |
| Fen.PrintingKeepsLoaded | frontend/assets/js/chess.js:202-401 | for every accepted text, with no king, two kings or pawns on end ranks too, what it loads is printed and loaded again unchanged |
| Fen.BoardRoundTrip | frontend/assets/js/chess.js:217-229 | filling a blank board from the printed board field rebuilds every square and the king cache |
| Fen.RightsRoundTrip | frontend/assets/js/chess.js:382-397 | the printed rights field is valid and read back |
| Fen.EpRoundTrip | frontend/assets/js/chess.js:398-398 | the printed en-passant field is valid, of the right side, and read back |
| Fen.KeyEquality | frontend/assets/js/chess.js:848-853 | the first four fields of two well-formed positions are equal exactly if board, turn, rights and en-passant square are |
| Text.NumberRoundTrip | frontend/assets/js/chess.js:247-248 | a printed counter passes both number tests and is read back |
| Text.DigitsAreNumbers | frontend/assets/js/chess.js:281-289 | any digits pass the number tests and are read as their decimal value |
| Text.WordsAreNoNumbers | frontend/assets/js/chess.js:281-289 | a text that begins like no number passes neither |
| Text.SplitJoin | frontend/assets/js/chess.js:207-207 | joining fields by single spaces and splitting on white space gives them back |
| Engine.Chessboard.InThreefoldRepetition | frontend/assets/js/chess.js:831-868 | rewinding and replaying a history of any length leaves the state unchanged and answers true exactly if some situation occurs three times along it |
| Repetition.KeysDecideThreefold | frontend/assets/js/chess.js:847-865 | counting key texts decides whether three positions of the history agree in board, turn, rights and en-passant square |
| Engine.Chessboard.Perft | frontend/assets/js/chess.js:1218-1237 | the number of nodes is the number of legal lines of that length (of length one for depths below one), state unchanged |
| Replay.LinesExact | frontend/assets/js/chess.js:1218-1237 | the lines counted are exactly the sequences of legal moves of that length |
| Replay.LinesNoRepeats | frontend/assets/js/chess.js:1218-1237 | and no line is counted twice |
| Engine.Chessboard.InsufficientMaterial | frontend/assets/js/chess.js:784-829 | the scan with its colour toggle decides insufficient material |
| Material.InsufficientMeans | frontend/assets/js/chess.js:807-828 | that is: besides the kings nothing, one knight, or bishops only and all on one shade |
| GameService.GameEntity.constructor | gameservice/entity/entity.go:47-72 | a new game: players ordered by id, colours by lot, active, no moves |
| Lifecycle.NewMatchIsOrdered | gameservice/entity/entity.go:340-355 | the player whose id comes first is player 1, whichever user is named first; the players are the two users, one with white and one with black |
| Ids.IdsAreOrdered | gameservice/entity/entity.go:340-345 | compared as texts, of two different ids exactly one comes first |
| GameService.GameEntity.Move | gameservice/entity/entity.go:94-111 | a move is taken exactly if it is the mover's turn, at index len+1 and accepted by the rules; then the list grows by it |
| GameService.GameEntity.OfferDraw | gameservice/entity/entity.go:129-154 | an offer is taken exactly from the player on turn when none stands |
| GameService.GameEntity.AcceptDraw | gameservice/entity/entity.go:156-179 | accepting succeeds exactly for a player who faces the other's offer, and draws the game |
| GameService.GameEntity.RejectDraw | gameservice/entity/entity.go:181-199 | rejecting succeeds under the same condition and clears the offer |
| GameService.GameEntity.ClaimDraw | gameservice/entity/entity.go:201-218 | a claim succeeds exactly by a player, for one of the two methods, when the rules allow it |
| GameService.GameEntity.Resign | gameservice/entity/entity.go:247-275 | the other side wins, unless the outcome was settled before; the game is deactivated |
| GameService.GameCache.AddGame | gameservice/service/cache.go:52-96 | the script as one step: refused if the id is known, else record and both player keys are set |
| GameService.GameCache.UpdateAndDeactivateGame | gameservice/service/cache.go:120-144 | the record is replaced and both player keys are deleted |
| GameService.ConnectionTracker.Add | gameservice/service/connection.go:106-115 | the time of leaving is recorded, overwriting an earlier one |
| GameService.ConnectionTracker.Remove | gameservice/service/connection.go:30-41 | a rejoining player is forgotten, and the game with its last one |
| GameService.ConnectionTracker.EarliestOf | gameservice/service/connection.go:79-93 | the minimum loop finds an earliest leaver before the limit, in any iteration order |
| GameService.ConnectionTracker.GetGamesNeedsToRemove | gameservice/service/connection.go:71-104 | for exactly the games somebody left before the limit, an earliest leaver; those games are forgotten |
| GameService.Service.constructor | gameservice/service/manager.go:26-38 | a new instance is in the state of the empty run |
| GameService.Service.CheckByPlayer | gameservice/service/manager.go:144-153 | true exactly if the player plays in a live game |
| GameService.Service.HandleUsersMatched | gameservice/service/event.go:18-60 | the handler has exactly the effect of the matching step on live games, cache and log |
| GameService.Service.HandlePlayerMoved | gameservice/service/event.go:62-132 | the handler has exactly the effect of the move step: refused, approved, or approved and ended |
| GameService.Service.HandlePlayerClaimDraw | gameservice/service/event.go:134-191 | the handler has exactly the effect of the claim step: offer, claimed draw, or nothing |
| GameService.Service.HandlePlayerRespondedDrawOffer | gameservice/service/event.go:193-225 | the handler has exactly the effect of the answer step |
| GameService.Service.HandlePlayerResigned | gameservice/service/event.go:227-258 | the handler has exactly the effect of the resignation step |
| GameService.Service.HandlePlayerLeft | gameservice/service/event.go:260-262 | leaving starts the clock of the player in the game |
| GameService.Service.HandlePlayerJoined | gameservice/service/event.go:264-266 | joining stops it |
| GameService.Service.LeaversLose | gameservice/service/manager.go:66-88 | the ticker loop lets exactly the picked leavers who play lose, and collects final states and events in order |
| GameService.Service.CheckPlayersConnection | gameservice/service/manager.go:57-105 | the batched tick has exactly the effect of ending the games one after the other |
| Lifecycle.BatchIsSequential | gameservice/service/manager.go:57-105 | ending all games of a tick in one batch equals ending them in turn, whatever the order of the list |
| Lifecycle.StepKeepsOk | gameservice/service/event.go:18-266 | every handler and the tick keep the invariant: live games active and cached, one game a player, index exact, endings final, approvals true and complete, offers published |
| Lifecycle.RunKeepsOk | gameservice/service/event.go:18-266 | so does every run, whatever events arrive in whatever order |
| Lifecycle.RunsIndexPlayers | gameservice/service/cache.go:52-144 | on every run no player is in two live games and the player-to-game map is exactly { p -> g : g live, p plays g } |
| Lifecycle.RunsEndOnce | gameservice/service/event.go:62-258 | on every run a game id has at most one end event, its outcome is real, and no move of it is approved afterwards |
| Outcomes.RunsFollowRules | gameservice/service/event.go:62-132 | on every run the cached moves of each game were taken by the rules one after the other, a live game is undecided after its last move, and a game ended by a move has the outcome that the rules give its moves |
| Outcomes.RunsEarn | gameservice/service/event.go:62-258 | on every run each approval is of the next move of the player on turn and taken by the rules, each draw offer comes from the player on turn, each claimed draw was claimable by a player of the game, and each resignation is a player's own and lost by that player |
| Outcomes.TakenIsApproved | gameservice/service/event.go:62-132 | conversely such a move is approved, and the end is published next exactly if the rules have a verdict, with that verdict |
| Outcomes.GrantedIsDrawn | gameservice/service/event.go:134-191 | conversely such a claim is approved and ends the game in a draw |
| Outcomes.OfferIsApproved | gameservice/service/event.go:134-191 | an offer of the player on turn, with none standing, is approved and stands |
| Outcomes.AnswerMeans | gameservice/service/event.go:193-225 | an answer to the other player's standing offer draws the game or takes the offer away; any other answer changes nothing |
| Outcomes.MatchMeans | gameservice/service/event.go:18-60 | a game is created exactly for two users who play in no live game, under an unused id |
| Lifecycle.AgreementNeedsOffer | gameservice/service/event.go:134-225 | on every run, each draw by agreement is published by a player's acceptance; an earlier step is the other player's offer, which was published, has been standing in every world between, and has not been rejected |
| Lifecycle.TickEndsLeavers | gameservice/service/manager.go:57-105 | a tick ends exactly the live games whose picked leaver plays in them; each is lost by an earliest leaver past the threshold |
| Lifecycle.LeaversLoseGames | gameservice/service/manager.go:57-105 | on every run whose ticks get a right answer of the tracker and look at all live games, each game ended by leaving is lost by a player who left it before the limit, has not come back, and whom nobody on record preceded |
| Lifecycle.TickForgets | gameservice/service/connection.go:71-104 | the tracker drops every game somebody left before the limit; the game ends if all earliest leavers are its players and goes on if none of them is |
| Lifecycle.SureToEnd | gameservice/service/connection.go:71-104 | whatever order the map is read in, the game is sure to end exactly if all earliest leavers are its players, and sure to go on exactly if none is |
| Lifecycle.StrangerShields | gameservice/service/connection.go:71-104 | a concrete run on which a leaver who plays nowhere shields a player past the threshold |
| Lifecycle.RunsTellStatus | gameservice/service/event.go:134-225 | on every run the cached copy of an ended game is marked ended exactly if it did not end in a claimed or agreed draw |
| Lifecycle.AgreedDrawStaysActive | gameservice/service/event.go:193-225 | a concrete run: offer, acceptance, and a cached copy that still says active |
| Record.RecordRoundTrip | gameservice/entity/entity.go:277-338 | decoding an encoded game gives back header and body, even if the body has line breaks |
| Record.StoredGameReloads | gameservice/entity/entity.go:277-338 | a stored game is reloaded with players, status, moves and outcome, and unchanged exactly if no draw offer was standing |
| MoveLog.Viewer.HandleMoveApproved | frontend/assets/js/eventHandlers.js:46-72 | the three guarded branches amount to applying an approval exactly at index len+1 |
| Lifecycle.StepGrowsByOne | gameservice/entity/entity.go:94-118 | a step changes the move list of a game only by one move at index len+1, played by the side on turn |
| MoveLog.ViewersHoldPrefixes | frontend/assets/js/eventHandlers.js:66-71 | under any drop, duplication and reordering of events and loading of old records, every viewer's list is a prefix of the server's |
| MoveLog.ApprovalsLast | gameservice/service/event.go:62-132 | an approval at index i carries the server's i-th move, at every later time |
| MoveLog.RunsPublishInOrder | gameservice/service/event.go:62-132 | on every run the approvals of a game are published in the order of their indices |
| MoveLog.ApprovalsArrive | frontend/assets/js/eventHandlers.js:46-72 | a viewer that is delivered all approvals of its game in the order of their indices, among any other events, repeated or late, ends up with the server's whole list |
| MoveLog.LogArrives | frontend/assets/js/eventHandlers.js:46-72 | in particular, on every run a new viewer that is delivered everything published, in that order, holds the whole list |
| Matchmaking.Engine.AddToQueue | matchservice/service/engine.go:58-75 | refused exactly if the user waits anywhere; else a fresh request joins the end of its level's queue |
| Matchmaking.Engine.CancelRequest | matchservice/service/engine.go:77-88 | removes the first entry of the same user in the queue of the request's level |
| Matchmaking.PairOff | matchservice/service/engine.go:101-119 | the inner loop pairs neighbours, answers both and returns the odd one |
| Matchmaking.Engine.FindMatches | matchservice/service/engine.go:90-133 | the carry loop refines a simple function: consecutive pairs of all queues from kings to pawns, each request answered once, the odd last one back in its own level's queue |
| Matchmaking.MatchRequest.SendResponse | matchservice/service/engine.go:151-154 | a request can be answered only while its channel is open and unanswered; it is closed by it |
| Matchmaking.NeighboursMatch | matchservice/service/engine.go:101-119 | of those waiting, best level first, the k-th two are matched with each other, both are told, and neither waits on |
| Bands.BestFirst | matchservice/service/engine.go:90-101 | of two who wait, the one served first is never in a lower band, the bands ending at 1200, 1400, 1600, 1800 and 2000 |
| Bands.MatchesBestFirst | matchservice/service/engine.go:98-119 | so no score of a match is in a lower band than one of a later match of the same tick |
| Bands.FirstComeFirstServed | matchservice/service/engine.go:58-133 | on every run, within a band whoever asked earlier is served first |
| Matchmaking.OddOneWaits | matchservice/service/engine.go:121-131 | an odd last request alone waits on, in the queue of its own level |
| Matchmaking.RunKeepsLobbyOk | matchservice/service/engine.go:58-133 | on every run user ids are unique over all queues, each queue holds its level only, and every request is exactly once answered, cancelled or waiting |
| Matchmaking.RunsAnswerOnce | matchservice/service/engine.go:58-133 | on every run a request is answered at most once, and requests made = 2 * matches + cancelled + waiting |
| Matchmaking.CancelMeans | matchservice/service/engine.go:77-88 | cancelling takes out that very request exactly if it still waits, and another request exactly if it does not and its user waits again at the same level |
| Matchmaking.StaleCancelTakesNewer | matchservice/service/engine.go:77-88 | cancelling an answered request after its user asked again takes out the new request |
| Matchmaking.CancelHitsNewer | matchservice/service/engine.go:77-88 | a concrete run on which this happens |
| Elo.KFactorFalls | pkg/elo/elo.go:37-65 | K is 32 up to 1400, 24 up to 1800 and 16 above, and never rises with the score |
| Elo.ExpectedIsFair | pkg/elo/elo.go:26-26 | expected scores lie between 0 and 1 and those of the two players add up to 1 |
| Elo.ExpectedGrows | pkg/elo/elo.go:26-26 | the expected score depends on the difference of the ratings alone and strictly grows with it |
| Elo.FourHundredPoints | pkg/elo/elo.go:26-26 | equal players expect a half; 400 points are one power of ten |
| Elo.AmongEquals | pkg/elo/elo.go:18-35 | between equals a win brings half the K-factor, a loss costs it down to the floor, a draw changes nothing |
| Elo.RatingsMoveTheRightWay | pkg/elo/elo.go:18-35 | a win never lowers and a loss never raises a rating, by at most the K-factor, and never below the floor |
| Elo.DrawFavoursTheWeaker | pkg/elo/elo.go:18-35 | a draw never lowers the weaker player and never raises the stronger |
| Elo.ChangesBalance | pkg/elo/elo.go:18-35 | with equal K-factors and no floor the two changes sum to 0 if the exact ratings are whole and to -1 otherwise |
| Elo.SomePower | pkg/elo/elo.go:26-26 | what is assumed of the power function can be met |
| Ratings.UpdateGameStats | profileservice/service/rating/rating.go:197-222 | the in-place counters after a game, winner by the first player's colour |
| Ratings.RatingService.HandleGameEnded | profileservice/service/rating/rating.go:90-177 | both ratings and both changes are what the event and the old ratings say |
| Ratings.RunsAccount | profileservice/service/rating/rating.go:90-222 | on every run: wins, losses and draws of a user are those of the events, games played are their sum plus games without a result, the score is 1000 plus all recorded changes and at least 1000, the best score is the peak |
| Ratings.PlayedAddsUp | profileservice/service/rating/rating.go:197-222 | played = won + lost + drawn exactly for users all of whose games had a result |
| Ratings.PeakIsHighest | profileservice/service/rating/rating.go:160-166 | the peak is the maximum of the scores reached |
| Standings.RunsFeedRatings | profileservice/service/rating/rating.go:90-222 | from every run of the game service in which two different users are matched each time, the endings it publishes give ratings whose games played are won, lost or drawn, with scores and best scores as above |
| Ratings.RunsRecord | profileservice/service/rating/rating.go:125-152 | on every run each event leaves exactly two changes, one a player, with the right result and sign |
| Ratings.GamesCreateNoPoints | profileservice/service/rating/rating.go:120-152 | the two recorded changes of a game sum to 0 or -1 with equal K-factors and no floor |
| Query.WriteConditions | pkg/paginate/sql/query.go:36-88 | conditions, arguments and numbering built in any iteration order; fails exactly if some filter has too few values |
| Query.WriteQuery | pkg/paginate/sql/query.go:16-106 | both queries read what was meant, through placeholders numbered from left to right |
| Query.ConditionsRead | pkg/paginate/sql/query.go:41-91 | joined conditions, filled in with the arguments, say the filters in order, each with its own values |
| Query.FaithfulMeans | pkg/paginate/sql/query.go:90-105 | placeholders are $1..$n with n arguments, the last two limit and offset; the count query has the same conditions and uses exactly $1..$(n-2) |
| QueryMeaning.WhereSelects | pkg/paginate/sql/query.go:36-91 | read as SQL, the conditions select exactly the rows whose values pass every filter, each operator by its meaning on values |
| QueryMeaning.ConditionMeans | pkg/paginate/sql/query.go:41-82 | one written condition is met exactly by the rows whose value passes the filter |
| QueryMeaning.OrderSays | pkg/paginate/sql/query.go:93-113 | the order clause names the column, by default id, and says DESC exactly if asked to |
| Query.NothingMeant | pkg/paginate/sql/query.go:41-91 | there are no conditions exactly if all operators are unknown |
| Query.EmptyWhere | pkg/paginate/sql/query.go:85-105 | given filters, nothing stands between WHERE and what follows exactly if all operators are unknown |
| Query.UnknownOperator | pkg/paginate/sql/query.go:85-105 | such a query: one filter with an unknown operator writes a count query that ends with WHERE |
| Query.EmptyListWritten | pkg/paginate/sql/query.go:60-76 | a condition without a placeholder is written exactly for a list operator with no values, and it has an empty list |
| WidgetFen.ExpandIsSpread | frontend/assets/js/chessboard-1.0.0.js:416-424 | the seven replacements amount to one left-to-right reading of the digits |
| WidgetFen.SqueezeExpand | frontend/assets/js/chessboard-1.0.0.js:406-424 | squeezing runs of empty squares loses nothing |
| WidgetFen.ObjToFen | frontend/assets/js/chessboard-1.0.0.js:368-398 | fails exactly for invalid positions, else prints the squeezed rows |
| WidgetFen.FenToObj | frontend/assets/js/chessboard-1.0.0.js:331-364 | fails exactly for invalid text, else yields the position its rows describe, skipping digits without expanding them |
| WidgetFen.WidgetRoundTrip | frontend/assets/js/chessboard-1.0.0.js:331-398 | for every valid position its text is valid, and reading it gives that position and no other |
| WidgetFen.TextRoundTrip | frontend/assets/js/chessboard-1.0.0.js:331-398 | for every valid text, printing what was read stands for the same rows |
| Shown.PrintsAlike | frontend/assets/js/chessboard-1.0.0.js:368-414 | the widget prints the pieces of any board as the engine prints its board field |
| Shown.ShowsTheGame | frontend/assets/js/board.js:195-195 | given any text the engine prints, the widget shows each piece of the engine on its square and nothing else |
| Shown.SqueezedCompletely | frontend/assets/js/chessboard-1.0.0.js:368-414 | the text of every valid position is a board field the engine accepts: eight full rows and no two digits side by side |
| WidgetMoves.CreateRadius | frontend/assets/js/chessboard-1.0.0.js:462-492 | all other squares, ordered by distance |
| WidgetMoves.DistanceIsLeast | frontend/assets/js/chessboard-1.0.0.js:427-442 | the distance of two squares is the least number of king steps between them |
| WidgetMoves.FindClosestPiece | frontend/assets/js/chessboard-1.0.0.js:445-459 | a nearest square with the piece, or none if there is none |
| WidgetMoves.FindSlides | frontend/assets/js/chessboard-1.0.0.js:1053-1071 | each slide takes a nearest remaining piece of the right kind; none that could slide is left |
| WidgetMoves.CalculateAnimations | frontend/assets/js/chessboard-1.0.0.js:1036-1104 | slides, then appearances on the other changed squares of the new position, then disappearances on the remaining changed squares of the old one |
| WidgetMoves.CrossedMeans | frontend/assets/js/chessboard-1.0.0.js:1053-1104 | no square gets both exactly if every square with different pieces before and after is the source or the destination of a slide |
| WidgetMoves.PlainMoveCrossesNothing | frontend/assets/js/chessboard-1.0.0.js:1053-1104 | a piece that moves to another square, capturing or not, gives no square both an appearance and a disappearance |
| WidgetMoves.CapturingPromotionCrosses | frontend/assets/js/chessboard-1.0.0.js:1073-1101 | a piece that captures and turns into another one does not slide; its new square gets both |
| WidgetMoves.ReplacedPieceCrosses | frontend/assets/js/chessboard-1.0.0.js:1053-1104 | for one piece in the place of another the only animations are one appearance and one disappearance |
| WidgetPlay.Display.DoAnimations | frontend/assets/js/chessboard-1.0.0.js:992-1031 | the loop begins all animations in order: elements taken off, appended or faded, one report for each effect, counter at zero |
| WidgetPlay.Display.Finish | frontend/assets/js/chessboard-1.0.0.js:931-1004 | one ended effect: a slide or spare piece lands, the counter goes up, and the board is redrawn when it equals the number of animations |
| WidgetPlay.Display.DrawPositionInstant | frontend/assets/js/chessboard-1.0.0.js:1110-1120 | clearing and appending in any order leaves one element for every piece of the current position |
| WidgetPlay.Display.Position | frontend/assets/js/chessboard-1.0.0.js:1509-1551 | computes and begins the animations from the current position and makes the new one current |
| WidgetPlay.NothingToDo | frontend/assets/js/chessboard-1.0.0.js:1036-1104 | nothing is animated exactly if the positions are equal |
| WidgetPlay.ReportsSuffice | frontend/assets/js/chessboard-1.0.0.js:993-1031 | every animation makes a report, a cleared square never being empty at its turn; there are more reports than animations exactly if a square gets both and new pieces do not come from the spare pieces |
| WidgetPlay.AllBeginFirst | frontend/assets/js/chessboard-1.0.0.js:1006-1031 | the effects that end at once are fewer than the animations, so all of these have begun before the redraw |
| WidgetPlay.PlayingArrives | frontend/assets/js/chessboard-1.0.0.js:992-1031 | for any two positions and every order of the reports: reports keep coming until the counter is reached, then the board is redrawn, exactly once, and from then on it shows the new position whatever reports follow |
| WidgetPlay.QueenForPawn | frontend/assets/js/chessboard-1.0.0.js:992-1104 | a concrete case: from a white pawn on e4 to a black queen on e4 two animations make four reports |
| WidgetMoves.EachSquareOnce | frontend/assets/js/chessboard-1.0.0.js:1053-1084 | each changed square of the new position gets a slide or an appearance, not both; a piece appears only if every other changed square that held one slides away |
| WidgetMoves.SlidesDiffer | frontend/assets/js/chessboard-1.0.0.js:1053-1071 | no two slides share a source or a destination |
| WidgetMoves.SlidesAreNearest | frontend/assets/js/chessboard-1.0.0.js:1053-1071 | the source of a slide held that piece and was nearest among the squares not used before |

## Left out

- Wire and storage: Kafka, Redis access, gRPC, HTTP, Postgres, logging, tokens. Redis is two maps, publishing is appending to a log, the cache script and the pipeline are single steps.
- Handlers and ticker are atomic and succeed: interleavings inside a handler, failing publications and several service instances are not modelled.
- The chess library of the server is an abstract rulebook (which moves it takes, which verdict a list of moves has, which draws may be claimed); white is taken to be on turn after an even number of moves, and the library's text of a game is assumed to be readable by itself.
- Timestamps are plain numbers handed in; scores inside players, the game settings and the time limit are not modelled.
- Deactivated cache records never expire in the model, so a game id is never taken anew.
- `ResingByPlayer` of the game service: it can end a game again whose cached copy stayed active after a draw, so the once-only results are about the event handlers and the ticker.
- The `accepted` mark of a draw offer: it is set only together with ending the game.
- Ids are numbers, compared by their decimal texts. New ids are arguments, so nothing is claimed about the random generator never repeating itself.
- Pieces are values: that the JavaScript board shares one piece object between squares for a moment during a move is not visible in the model.
- `castling[us] = ''` is modelled as no rights, and `undefined` squares as empty ones.
- Whole-number counters of 10^21 and more, which JavaScript prints with an exponent, are printed in full; a counter that loads as not-a-number is a separate outcome of loading, about which nothing more is said.
- Of chess.js: the sloppy parser, `load_pgn`, `pgn`, headers, `ascii`, `put` and `remove` in mid-game, the `CustomEvent`, square names that are not on the board, and checkmate and stalemate, which are one line over the modelled parts.
- Positions that are not well formed are covered for attack detection, validation, loading and insufficient material only; generating moves from them is not.
- The attack tables are stored as 15 printed rows.
- Matchmaking queues are a sequence of six queues, where the code has a map whose missing levels read as empty; the mutex and the channel between ticker and service are not modelled.
- Elo is computed over the reals with an abstract power function (positive, increasing, inverse under negation); rounding of floating-point numbers is not modelled.
- The rating repository is two collections updated in one step; its error paths are not modelled.
- The query text is a sequence of words and placeholders; that `$` and the number are written next to each other, and what the column names are, is not looked into.
- QueryMeaning.WhereSelects: the names of the columns are taken to hold no space, so that name and operator can be told apart.
- WidgetPlay.Display.Position: a second change of position while effects of the first are still running is not modelled; in the code each change then has its own counter, and the effects of both act on one page.
- Of playing animations: durations (reports come in any order, all after the animations have begun; with a duration of zero they could come before); the report of a fade is taken to come even if its element is removed while fading; elements of one square that have faded out stay on the page, as in the code, until the redraw.
- Of the board widget: the page and dragging; `sort` is taken to be stable.
- In player mode a viewer may run ahead of the server with its own moves; prefixes are claimed for viewing.
- The websocket gateway, its subscriptions, the chat and profile services beyond ratings, the bots.
