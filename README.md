# Cubes core, modelled in Dafny

Cubes is a voxel game with a client, a server and a Java networking engine. This project models the
parts of its core that are sequential and self-contained, and proves what their code promises:

- **Command tokenizer.** The server console cursor (`ParseContext`), the three token rules (quoted
  string with escapes, signed decimal number, bare word) and the loop that applies them
  (`CommandExpression`). Each of the seventeen cases of the console parsing test is proved as a
  lemma about the tokenization that `ParseTokens` computes.
- **Movement.** The player movement context and its four states: walking, sprinting, crouching and
  flying. This covers their transition tables, speeds and capability flags.
- **Session, handshake and dispatch.**
  - The client session's state machine, with its tick counter, heartbeat and send-only-while-running rule.
  - The server's decision on the intent byte of a new connection, and the fields of a ping reply.
  - The chain of packet handlers.
  - The skin-colour packet's write/read round trip.
- **Containers.**
  - The double-buffered runnable queue.
  - The truncating inspection of a collection.
  - The LRU caches of the caching save layer, over a save modelled as maps.
  - The per-operation statistics of the timing save layer.
- **Undoable commands.** Placing and breaking a block, and their composite, over worlds that map
  (x, y, z) to a block and its meta. A composite's sub-commands may act on different worlds and may
  be added more than once. Undoing restores the worlds when no sub-command was added twice.
- **Registries and small rules.**
  - The flyweight cache of block texture handlers.
  - Block id validation and mining rules.
  - The terrain-generator and block-factory registries.
  - The settings composite.
  - The level-filtering, lazily created log writer.
  - The terrain template's hook order and block-code encoding, and the layers of the basic generator.
- **Diagram tools (Python).**
  - From the Java source parser: comment removal, brace matching, the parameter-list split, type-name
    cleanup and visibility.
  - From the PlantUML-to-XMI converter: base-type extraction, collection detection, visibility symbols,
    attribute and method records, and the associations derived from attributes.

Objects whose fields the source updates are Dafny classes, with `modifies` clauses. Their methods are
proved against specification functions, and the loops carry invariants. Pure code is written as
functions and lemmas.

Sockets, streams and queues are sequences of values. I/O outcomes, clocks and unseen collaborators
are parameters.

## Model

| member | source | states |
|---|---|---|
| `ParseContext.SkipWs` | core/src/ethanjones/cubes/side/server/command/parsing/ParseContext.java:88-92 | the first position at or after the start that is not whitespace, never past the end of the input |
| `ParseContext.SkippedAreWhitespace` | core/src/ethanjones/cubes/side/server/command/parsing/ParseContext.java:88-92 | every character the whitespace skip passes over is whitespace |
| `ParseContext.ParseContext.constructor` | core/src/ethanjones/cubes/side/server/command/parsing/ParseContext.java:18-21 | a new context holds the input and stands at position 0 |
| `ParseContext.ParseContext.SetPosition` | core/src/ethanjones/cubes/side/server/command/parsing/ParseContext.java:40-45 | a position in [0, length] is taken; any other is refused with IllegalArgumentException("Position out of bounds: p") and the position is kept |
| `ParseContext.ParseContext.Peek` | core/src/ethanjones/cubes/side/server/command/parsing/ParseContext.java:50-62 | succeeds exactly when a character remains (position < length) and then gives input[position]; otherwise IllegalStateException |
| `ParseContext.ParseContext.PeekAt` | core/src/ethanjones/cubes/side/server/command/parsing/ParseContext.java:67-73 | succeeds exactly when position+offset is in [0, length) and then gives that character; otherwise IllegalArgumentException naming the offset |
| `ParseContext.ParseContext.Consume` | core/src/ethanjones/cubes/side/server/command/parsing/ParseContext.java:78-83 | at a remaining character returns it and advances by exactly one; at the end fails with IllegalStateException without moving |
| `ParseContext.ParseContext.SkipWhitespace` | core/src/ethanjones/cubes/side/server/command/parsing/ParseContext.java:88-92 | the new position is the first non-whitespace position at or after the old one (or the end); the input is unchanged |
| `ParseContext.ParseContext.Remaining` | core/src/ethanjones/cubes/side/server/command/parsing/ParseContext.java:97-99 | the consumed part followed by the result is the whole input |
| `ParseContext.ParseContext.StartsWith` | core/src/ethanjones/cubes/side/server/command/parsing/ParseContext.java:104-106 | holds exactly when the prefix fits and the input from the position begins with it |
| `QuotedStringToken.Unescape` | core/src/ethanjones/cubes/side/server/command/parsing/QuotedStringToken.java:38-60 | an escape decodes to one character, or an unknown one keeps both the backslash and the character |
| `QuotedStringToken.Step` | core/src/ethanjones/cubes/side/server/command/parsing/QuotedStringToken.java:33-67 | one pass consumes at least one character, and reports the closing quote only when it consumed exactly the opening quote character |
| `QuotedStringToken.Body` | core/src/ethanjones/cubes/side/server/command/parsing/QuotedStringToken.java:32-71 | the scan ends just past the closing quote, or at the end of the input when the quote is unclosed |
| `QuotedStringToken.Token` | core/src/ethanjones/cubes/side/server/command/parsing/QuotedStringToken.java:29-71 | a matching token consumes at least the opening quote and stays inside the input |
| `QuotedStringToken.Interpret` | core/src/ethanjones/cubes/side/server/command/parsing/QuotedStringToken.java:19-72 | where no quote starts the remaining input: null and no move; otherwise the decoded body, with the position just past the closing quote (or at the end) |
| `QuotedStringToken.ReadStep` | core/src/ethanjones/cubes/side/server/command/parsing/QuotedStringToken.java:33-67 | one loop pass appends and moves exactly as the pass function says |
| `QuotedStringToken.ReadBody` | core/src/ethanjones/cubes/side/server/command/parsing/QuotedStringToken.java:32-71 | the reading loop returns the decoded body and stops where the body scan stops |
| `QuotedStringToken.EscapeCodesInverse` | core/src/ethanjones/cubes/side/server/command/parsing/QuotedStringToken.java:38-56 | the six escapes and the characters they stand for correspond one to one |
| `QuotedStringToken.Escape` | core/src/ethanjones/cubes/side/server/command/parsing/QuotedStringToken.java:38-56 | writing a text with escapes never shortens it |
| `QuotedStringToken.EscapedAtSlice` | core/src/ethanjones/cubes/side/server/command/parsing/QuotedStringToken.java:35-67 | an escaped text laid into the input is recognised at that place |
| `QuotedStringToken.BodyOfEscape` | core/src/ethanjones/cubes/side/server/command/parsing/QuotedStringToken.java:32-64 | an escaped text followed by the quote is read back exactly, stopping just past the quote whatever follows |
| `QuotedStringToken.QuotedRoundTrip` | core/src/ethanjones/cubes/side/server/command/parsing/QuotedStringToken.java:19-64 | a token written as quote, escaped text, quote matches and decodes to the text, consuming exactly its written length |
| `QuotedStringToken.UnclosedBody` | core/src/ethanjones/cubes/side/server/command/parsing/QuotedStringToken.java:32-71 | without a backslash or closing quote the rest of the input is returned unchanged and the position reaches the end |
| `NumberToken.DigitRun` | core/src/ethanjones/cubes/side/server/command/parsing/NumberToken.java:40-42 | the run of digits stops at the first non-digit or the end |
| `NumberToken.DigitRunIsDigits` | core/src/ethanjones/cubes/side/server/command/parsing/NumberToken.java:40-42 | everything the run passes is a digit |
| `NumberToken.IntegerEnd` | core/src/ethanjones/cubes/side/server/command/parsing/NumberToken.java:35-42 | the sign and integer part consume at least one character |
| `NumberToken.End` | core/src/ethanjones/cubes/side/server/command/parsing/NumberToken.java:35-54 | scanning stops at a non-digit or the end; a dot without a following digit is left unconsumed |
| `NumberToken.Token` | core/src/ethanjones/cubes/side/server/command/parsing/NumberToken.java:32-56 | the result is non-empty and equals the consumed substring |
| `NumberToken.ReadDigits` | core/src/ethanjones/cubes/side/server/command/parsing/NumberToken.java:40-42 | the digit loop consumes exactly the run of digits and returns it |
| `NumberToken.ReadInteger` | core/src/ethanjones/cubes/side/server/command/parsing/NumberToken.java:34-42 | the optional minus and the integer part are consumed and returned as they stand in the input |
| `NumberToken.ReadFraction` | core/src/ethanjones/cubes/side/server/command/parsing/NumberToken.java:44-54 | a dot with a digit after it is consumed with its digit run; otherwise nothing is consumed |
| `NumberToken.Interpret` | core/src/ethanjones/cubes/side/server/command/parsing/NumberToken.java:19-57 | null and no move unless a digit, or a '-' followed by a digit, is next; otherwise the token, with the position just after it |
| `NumberToken.DigitsSlice` | core/src/ethanjones/cubes/side/server/command/parsing/NumberToken.java:40-42 | a run of digits read from the input is a digit string |
| `NumberToken.FractionSlice` | core/src/ethanjones/cubes/side/server/command/parsing/NumberToken.java:44-54 | digits, a dot and digits read from the input form an unsigned decimal |
| `NumberToken.TokenIsNumberLiteral` | core/src/ethanjones/cubes/side/server/command/parsing/NumberToken.java:35-56 | every token read has the shape -? digit+ ('.' digit+)? |
| `WordToken.End` | core/src/ethanjones/cubes/side/server/command/parsing/WordToken.java:30-37 | the word stops at the first whitespace or quote, or the end |
| `WordToken.EndPassesNoStop` | core/src/ethanjones/cubes/side/server/command/parsing/WordToken.java:30-37 | no whitespace or quote lies inside a word |
| `WordToken.Token` | core/src/ethanjones/cubes/side/server/command/parsing/WordToken.java:29-39 | when the rule matches, the word is non-empty and equals the consumed substring |
| `WordToken.Interpret` | core/src/ethanjones/cubes/side/server/command/parsing/WordToken.java:18-40 | null and no move unless a character other than whitespace or a quote is next; otherwise the longest such run, stopping before a quote without consuming it |
| `WordToken.WordHasNoStops` | core/src/ethanjones/cubes/side/server/command/parsing/WordToken.java:29-39 | a word is non-empty and holds no whitespace and no quote |
| `CommandExpression.TerminalToken` | core/src/ethanjones/cubes/side/server/command/parsing/CommandExpression.java:60-64 | an applicable rule always consumes at least one character and stays inside the input |
| `CommandExpression.TerminalInterpret` | core/src/ethanjones/cubes/side/server/command/parsing/CommandExpression.java:60-64 | a rule that does not apply returns null and leaves the position; one that applies returns its token and moves past it |
| `CommandExpression.FirstMatch` | core/src/ethanjones/cubes/side/server/command/parsing/CommandExpression.java:24-65 | the rule chosen is the first of quoted, number, word that applies; at a character that is not whitespace some rule always applies |
| `CommandExpression.NextToken` | core/src/ethanjones/cubes/side/server/command/parsing/CommandExpression.java:58-68 | the token read at a token start consumes at least one character |
| `CommandExpression.Interpret` | core/src/ethanjones/cubes/side/server/command/parsing/CommandExpression.java:38-42 | always fails with UnsupportedOperationException |
| `CommandExpression.InterpretFirst` | core/src/ethanjones/cubes/side/server/command/parsing/CommandExpression.java:58-68 | trying the rules in order at a token start yields the next token and moves past it; the null-token branch cannot be taken |
| `CommandExpression.ParseTokens` | core/src/ethanjones/cubes/side/server/command/parsing/CommandExpression.java:50-76 | the tokens collected by the loop are exactly the tokenization of the input |
| `CommandExpression.Parse` | core/src/ethanjones/cubes/side/server/command/parsing/CommandExpression.java:84-87 | a fresh array holding the same tokens in order |
| `CommandExpression.NoTokensIffBlank` | core/src/ethanjones/cubes/side/server/command/parsing/CommandExpression.java:44-56 | a command has no tokens if and only if it is empty or all whitespace |
| `CommandExpression.TokensFromSkipsWhitespace` | core/src/ethanjones/cubes/side/server/command/parsing/CommandExpression.java:54-56 | whitespace before a token does not change the tokens read |
| `CommandExpression.TokensFromTokenStart` | core/src/ethanjones/cubes/side/server/command/parsing/CommandExpression.java:54-68 | at a token start the tokens are the token read there followed by the tokens after it |
| `CommandExpression.QuotedNext` | core/src/ethanjones/cubes/side/server/command/parsing/CommandExpression.java:58-68 | a quoted, escaped token is read back as its text, ending just after its closing quote |
| `CommandExpression.RenderRoundTrip` | core/src/ethanjones/cubes/side/server/command/parsing/CommandExpression.java:13-76 | any token list written out quoted and escaped, separated by spaces, is parsed back unchanged |
| `CommandExpression.TokenizePieces` | core/src/ethanjones/cubes/side/server/command/parsing/CommandExpression.java:50-76 | an input cut into pieces (blank runs, words, numbers, quoted strings with or without escapes, an unclosed quote at the end) tokenizes to the pieces' tokens in order |
| `CommandExpression.SimpleCommandTokens` | core/src/ethanjones/cubes/side/server/command/parsing/CommandParsingTest.java:75-84 | `say hello` gives `say`, `hello` |
| `CommandExpression.QuotedStringTokens` | core/src/ethanjones/cubes/side/server/command/parsing/CommandParsingTest.java:86-95 | `say "hello world"` gives `say`, `hello world` |
| `CommandExpression.SingleQuotesTokens` | core/src/ethanjones/cubes/side/server/command/parsing/CommandParsingTest.java:97-106 | `say 'hello world'` gives `say`, `hello world` |
| `CommandExpression.EscapeCharactersTokens` | core/src/ethanjones/cubes/side/server/command/parsing/CommandParsingTest.java:108-117 | `say "hello\nworld"` gives `say` and a token holding a newline |
| `CommandExpression.EscapedQuotesTokens` | core/src/ethanjones/cubes/side/server/command/parsing/CommandParsingTest.java:119-128 | `say "say \"hi\""` gives `say`, `say "hi"` |
| `CommandExpression.NumbersTokens` | core/src/ethanjones/cubes/side/server/command/parsing/CommandParsingTest.java:130-141 | `tp 10 20 30` gives `tp`, `10`, `20`, `30` |
| `CommandExpression.NegativeNumbersTokens` | core/src/ethanjones/cubes/side/server/command/parsing/CommandParsingTest.java:143-154 | `tp -5 10 -15` gives `tp`, `-5`, `10`, `-15` |
| `CommandExpression.FloatsTokens` | core/src/ethanjones/cubes/side/server/command/parsing/CommandParsingTest.java:156-167 | `tp 10.5 20.75 30.0` gives `tp`, `10.5`, `20.75`, `30.0` |
| `CommandExpression.MixedTokensTokens` | core/src/ethanjones/cubes/side/server/command/parsing/CommandParsingTest.java:169-180 | `give @player stone 64` gives its four words |
| `CommandExpression.MultipleSpacesTokens` | core/src/ethanjones/cubes/side/server/command/parsing/CommandParsingTest.java:182-192 | runs of spaces separate `say`, `hello`, `world` and give no empty tokens |
| `CommandExpression.LeadingTrailingSpacesTokens` | core/src/ethanjones/cubes/side/server/command/parsing/CommandParsingTest.java:194-203 | leading and trailing spaces give no tokens: `say`, `hello` |
| `CommandExpression.EmptyStringTokens` | core/src/ethanjones/cubes/side/server/command/parsing/CommandParsingTest.java:205-212 | the empty input has no tokens |
| `CommandExpression.OnlySpacesTokens` | core/src/ethanjones/cubes/side/server/command/parsing/CommandParsingTest.java:214-221 | an input of five spaces has no tokens |
| `CommandExpression.ComplexCommandTokens` | core/src/ethanjones/cubes/side/server/command/parsing/CommandParsingTest.java:223-235 | `say "Testing 123" @player -10.5 'quoted'` gives `say`, `Testing 123`, `@player`, `-10.5`, `quoted` |
| `CommandExpression.UnclosedQuoteTokens` | core/src/ethanjones/cubes/side/server/command/parsing/CommandParsingTest.java:237-246 | `say "hello` gives `say`, `hello`: an unclosed quote runs to the end |
| `CommandExpression.SpecialCharactersTokens` | core/src/ethanjones/cubes/side/server/command/parsing/CommandParsingTest.java:248-259 | `give @player diamond_sword 1` gives its four words |
| `CommandExpression.TabsAndNewlinesTokens` | core/src/ethanjones/cubes/side/server/command/parsing/CommandParsingTest.java:261-270 | `say "line1\tline2\nline3"` gives `say` and a token holding a tab and a newline |
| `Movement.Speed` | core/src/ethanjones/cubes/input/movement/WalkingState.java:16-21 | every speed is positive; walking 4.5, sprinting 7.0 (SprintingState.java:16-21), crouching 2.0 (CrouchingState.java:16-21), flying 10.0 (FlyingState.java:20-25) blocks per second |
| `Movement.Name` | core/src/ethanjones/cubes/input/movement/WalkingState.java:23-26 | the display names Walking, Sprinting, Crouching, Flying |
| `Movement.SpeedsOrdered` | core/src/ethanjones/cubes/input/movement/SprintingState.java:3-8 | crouching is slower than walking, walking than sprinting, sprinting than flying; no two states share a name |
| `Movement.CanJump` | core/src/ethanjones/cubes/input/movement/FlyingState.java:48-51 | jumping is allowed in every state but flying (default at MovementState.java:57-59) |
| `Movement.HasVerticalMovement` | core/src/ethanjones/cubes/input/movement/FlyingState.java:53-56 | only flying has vertical controls (default at MovementState.java:65-67) |
| `Movement.CanTransitionToFlying` | core/src/ethanjones/cubes/input/movement/SprintingState.java:47-51 | every state but sprinting may start flying (default at MovementState.java:73-75) |
| `Movement.PreventsEdgeFall` | core/src/ethanjones/cubes/input/movement/CrouchingState.java:47-51 | only crouching protects against falling off edges (default at MovementState.java:82-84) |
| `Movement.WalkingInput` | core/src/ethanjones/cubes/input/movement/WalkingState.java:28-45 | sprint on the ground gives sprinting, else crouch on the ground gives crouching, else walking stays, each as an if-and-only-if |
| `Movement.SprintingInput` | core/src/ethanjones/cubes/input/movement/SprintingState.java:28-45 | sprinting continues exactly while sprint is held on the ground, otherwise walking |
| `Movement.CrouchingInput` | core/src/ethanjones/cubes/input/movement/CrouchingState.java:28-45 | crouching continues exactly while crouch is held on the ground, otherwise walking |
| `Movement.FlyingInput` | core/src/ethanjones/cubes/input/movement/FlyingState.java:32-46 | flying ends in walking exactly when on the ground with flying switched off |
| `Movement.InputTransitions` | core/src/ethanjones/cubes/input/movement/PlayerMovementContext.java:57-60 | no input enters flying; off the ground every other state falls back to walking; sprinting and crouching are reached only from walking or themselves with their key held on the ground |
| `Movement.PlayerMovementContext.constructor` | core/src/ethanjones/cubes/input/movement/PlayerMovementContext.java:21-26 | starts walking with flying switched off |
| `Movement.PlayerMovementContext.SetState` | core/src/ethanjones/cubes/input/movement/PlayerMovementContext.java:32-38 | a different state is entered after the old one's exit hook and before the new one's enter hook; the same state changes nothing |
| `Movement.PlayerMovementContext.CurrentSpeed` | core/src/ethanjones/cubes/input/movement/PlayerMovementContext.java:43-45 | the speed of the current state |
| `Movement.PlayerMovementContext.CurrentStateName` | core/src/ethanjones/cubes/input/movement/PlayerMovementContext.java:50-52 | the name of the current state |
| `Movement.PlayerMovementContext.IsFlying` | core/src/ethanjones/cubes/input/movement/PlayerMovementContext.java:65-67 | holds exactly in the flying state |
| `Movement.PlayerMovementContext.CurrentCanJump` | core/src/ethanjones/cubes/input/movement/PlayerMovementContext.java:72-74 | the current state's jump flag |
| `Movement.PlayerMovementContext.CurrentHasVerticalMovement` | core/src/ethanjones/cubes/input/movement/PlayerMovementContext.java:79-81 | the current state's vertical-movement flag |
| `Movement.PlayerMovementContext.CurrentCanTransitionToFlying` | core/src/ethanjones/cubes/input/movement/PlayerMovementContext.java:86-88 | the current state's may-fly flag |
| `Movement.PlayerMovementContext.CurrentPreventsEdgeFall` | core/src/ethanjones/cubes/input/movement/PlayerMovementContext.java:93-95 | the current state's edge-protection flag |
| `Movement.PlayerMovementContext.UpdateState` | core/src/ethanjones/cubes/input/movement/PlayerMovementContext.java:57-60 | moves to the state the current state's input rule chooses, keeps the flying toggle, and keeps "flying on only while flying" |
| `Movement.PlayerMovementContext.SetFlyingEnabled` | core/src/ethanjones/cubes/input/movement/PlayerMovementContext.java:103-110 | switching on always ends in flying; switching off lands a flyer in walking and leaves any other state; afterwards flying is on only while flying |
| `Movement.PlayerMovementContext.ToggleFlying` | core/src/ethanjones/cubes/input/movement/PlayerMovementContext.java:112-114 | flips the toggle and moves as switching it to the new value does |
| `Movement.FlyingTarget` | core/src/ethanjones/cubes/input/movement/PlayerMovementContext.java:103-110 | the state left by switching flying on (flying) or off (walking from flying, otherwise unchanged) |
| `Movement.EnabledKeepsFlying` | core/src/ethanjones/cubes/input/movement/FlyingState.java:40-45 | while flying is switched on no input leads out of flying |
| `ClientNetworking.PingTicks` | core/src/ethanjones/cubes/networking/client/ClientNetworking.java:26-27 | ten seconds of ticks: between 10 and 10000 for a tick of 1 to 1000 ms |
| `ClientNetworking.HeartbeatAt` | core/src/ethanjones/cubes/networking/client/ClientNetworking.java:108-115 | idle exactly off a ping boundary; at a boundary, no-ping-response exactly when a ping is still awaited, else a ping is sent |
| `ClientNetworking.HeartbeatPeriod` | core/src/ethanjones/cubes/networking/client/ClientNetworking.java:106-115 | counting from zero, a ping goes out every PING_TICKS ticks, the ticks between are idle, and a ping still unanswered at the next boundary ends the session |
| `ClientNetworking.Session.constructor` | core/src/ethanjones/cubes/networking/client/ClientNetworking.java:37-43 | a new session is stopped, with no monitor, socket or handler chain, tick 0 and no ping awaited |
| `ClientNetworking.Session.PreInit` | core/src/ethanjones/cubes/networking/client/ClientNetworking.java:45-72 | enters Starting; a failure to open the socket is passed on; a failed handshake closes the socket and is passed on; otherwise the socket stays open |
| `ClientNetworking.Session.Init` | core/src/ethanjones/cubes/networking/client/ClientNetworking.java:74-94 | starts a new monitor with empty queues, enters Running, builds the validation, direction, gameplay, fallback chain and queues exactly one connect packet |
| `ClientNetworking.Session.SendPacketToServer` | core/src/ethanjones/cubes/networking/client/ClientNetworking.java:126-133 | the packet is appended to the outbound queue exactly when running; nothing else changes |
| `ClientNetworking.Session.Stop` | core/src/ethanjones/cubes/networking/client/ClientNetworking.java:118-124 | from Running enters Stopping and disposes the monitor; from any other state changes nothing |
| `ClientNetworking.Session.Disconnected` | core/src/ethanjones/cubes/networking/client/ClientNetworking.java:135-141 | ignored while stopping; otherwise records the cause, then fails with a NullPointerException exactly when the monitor it is given is null (reading its socket for the log message), and stops otherwise |
| `ClientNetworking.Session.Update` | core/src/ethanjones/cubes/networking/client/ClientNetworking.java:96-116 | shows the disconnected menu (with the cause) when not running, counts the tick with 32-bit wrap-around, and at a ping boundary sends a ping or, with one unanswered, disconnects with "No ping response"; that disconnect fails with a NullPointerException exactly when the session has no monitor and is not stopping |
| `ClientNetworking.Session.ProcessPackets` | core/src/ethanjones/cubes/networking/client/ClientNetworking.java:143-150 | drains the inbound queue, passing each packet once, in order, through the handler chain; without a monitor fails with a NullPointerException and changes nothing |
| `ServerConnectionInitializer.VersionItems` | core/src/ethanjones/cubes/networking/server/ServerConnectionInitializer.java:65-70 | the version goes out as four ints followed by the hash string |
| `ServerConnectionInitializer.Names` | core/src/ethanjones/cubes/networking/server/ServerConnectionInitializer.java:100-102 | one string item per connected player's name, in order |
| `ServerConnectionInitializer.NamesSnoc` | core/src/ethanjones/cubes/networking/server/ServerConnectionInitializer.java:100-102 | writing one more name appends exactly its item |
| `ServerConnectionInitializer.Handshake` | core/src/ethanjones/cubes/networking/server/ServerConnectionInitializer.java:56-82 | a failed read writes nothing and passes the failure on; otherwise the version comes first; code 0 clears the timeout and hands the socket on, code 1 writes the count and names, flushes and closes, any other code is IOException("Unrecognised connection code n"); each as an if-and-only-if |
| `ServerConnectionInitializer.Called` | core/src/ethanjones/cubes/networking/server/ServerConnectionInitializer.java:34-49 | after the checker runs, the socket is closed exactly when it was not handed on, and no exception escapes |
| `ServerConnectionInitializer.NamesAt` | core/src/ethanjones/cubes/networking/server/ServerConnectionInitializer.java:99-102 | a client reading n names gets exactly n |
| `ServerConnectionInitializer.NamesRoundTrip` | core/src/ethanjones/cubes/networking/server/ServerConnectionInitializer.java:99-102 | the names written are read back in order, whatever surrounds them |
| `ServerConnectionInitializer.VersionAt` | core/src/ethanjones/cubes/networking/server/ServerConnectionInitializer.java:65-70 | a version read from the front of a reply is the one whose items stand there |
| `ServerConnectionInitializer.PingReplyAt` | core/src/ethanjones/cubes/networking/server/ServerConnectionInitializer.java:65-102 | a ping reply read back consists of a version, then the count of the names that follow |
| `ServerConnectionInitializer.VersionReadBack` | core/src/ethanjones/cubes/networking/server/ServerConnectionInitializer.java:63-70 | every reply after a successful read starts with the server version, read back exactly |
| `ServerConnectionInitializer.PingReadBack` | core/src/ethanjones/cubes/networking/server/ServerConnectionInitializer.java:93-107 | the reply to a ping gives the client the server version and the players' names in order |
| `ServerConnectionInitializer.TransportSocket.constructor` | core/src/ethanjones/cubes/networking/server/ServerConnectionInitializer.java:56-61 | a new socket is open with no read timeout |
| `ServerConnectionInitializer.TransportSocket.SetSoTimeout` | core/src/ethanjones/cubes/networking/server/ServerConnectionInitializer.java:58 | sets the read timeout and nothing else |
| `ServerConnectionInitializer.TransportSocket.Close` | core/src/ethanjones/cubes/networking/server/ServerConnectionInitializer.java:106 | closes the socket and nothing else |
| `ServerConnectionInitializer.ServerNetworking.Accepted` | core/src/ethanjones/cubes/networking/server/ServerConnectionInitializer.java:90 | the socket is appended to the accepted ones |
| `ServerConnectionInitializer.Connect` | core/src/ethanjones/cubes/networking/server/ServerConnectionInitializer.java:84-91 | the read timeout becomes 0 and the socket is handed to the server's networking |
| `ServerConnectionInitializer.Ping` | core/src/ethanjones/cubes/networking/server/ServerConnectionInitializer.java:93-107 | the output gains the player count and every name in order, is flushed, and the socket is closed |
| `ServerConnectionInitializer.WriteVersion` | core/src/ethanjones/cubes/networking/server/ServerConnectionInitializer.java:65-70 | the output gains exactly the version's five items |
| `ServerConnectionInitializer.InitialConnect` | core/src/ethanjones/cubes/networking/server/ServerConnectionInitializer.java:56-82 | the result and the new state of the socket, its output and the server are exactly what the handshake function gives for the byte read |
| `ServerConnectionInitializer.HandOff` | core/src/ethanjones/cubes/networking/server/ServerConnectionInitializer.java:72-75 | code 0: the version, then the socket handed on with no timeout |
| `ServerConnectionInitializer.AnswerPing` | core/src/ethanjones/cubes/networking/server/ServerConnectionInitializer.java:76-78 | code 1: the version, then the ping reply, flushed and closed |
| `ServerConnectionInitializer.Refuse` | core/src/ethanjones/cubes/networking/server/ServerConnectionInitializer.java:79-80 | any other code: the version, then IOException naming the code |
| `ServerConnectionInitializer.Call` | core/src/ethanjones/cubes/networking/server/ServerConnectionInitializer.java:34-49 | returns null; the socket ends closed unless it was handed on, and the output is what the handshake writes |
| `Wire.ByteAt` | core/src/ethanjones/cubes/networking/server/ServerConnectionInitializer.java:63 | a byte read succeeds exactly when a byte is next; otherwise it fails at the end of the stream |
| `Wire.DataInput.ReadByte` | core/src/ethanjones/cubes/networking/server/ServerConnectionInitializer.java:63 | reads the next byte and moves past it, or fails without moving |
| `Wire.DataOutput.WriteInt` | core/src/ethanjones/cubes/networking/server/ServerConnectionInitializer.java:66-69 | appends one int to what was written; the flush state is kept |
| `Wire.DataOutput.Flush` | core/src/ethanjones/cubes/networking/server/ServerConnectionInitializer.java:103 | nothing written changes, and the stream is flushed |
| `PacketHandlers.SetNext` | core/src/ethanjones/cubes/networking/handler/BasePacketHandler.java:10-13 | the handler keeps its kind and now holds the given successor |
| `PacketHandlers.HandledMeansGameplay` | core/src/ethanjones/cubes/networking/handler/GameplayHandler.java:22-31 | in any chain, a packet reported handled is a gameplay packet (package contains "networking.packets") and its handlePacket is the one effect; an unhandled packet's handlePacket is never called; at most one effect per packet |
| `PacketHandlers.FallbackNeverForwards` | core/src/ethanjones/cubes/networking/handler/FallbackHandler.java:15-19 | the fallback answers false and reports the packet unhandled, whatever successor it holds |
| `PacketHandlers.ClientChain` | core/src/ethanjones/cubes/networking/client/ClientNetworking.java:83-94 | the client chain starts at the validation handler |
| `PacketHandlers.ClientChainDispatch` | core/src/ethanjones/cubes/networking/handler/BasePacketHandler.java:15-21 | through validation, direction, gameplay, fallback, a gameplay packet is handled by its handlePacket and any other is reported unhandled with false |
| `PacketHandlers.ClientEffect` | core/src/ethanjones/cubes/networking/handler/GameplayHandler.java:26-30 | the effect names the packet, and is handlePacket exactly for gameplay packets |
| `PacketHandlers.ClientDispatchAll` | core/src/ethanjones/cubes/networking/client/ClientNetworking.java:143-150 | draining packets through the client chain yields one effect per packet, in arrival order |
| `PacketPlayerSkinColor.WireColor` | core/src/ethanjones/cubes/networking/packets/PacketPlayerSkinColor.java:23 | the colour itself, or "default" when it is null |
| `PacketPlayerSkinColor.Encode` | core/src/ethanjones/cubes/networking/packets/PacketPlayerSkinColor.java:19-24 | two longs (the UUID halves) followed by one string |
| `PacketPlayerSkinColor.Decode` | core/src/ethanjones/cubes/networking/packets/PacketPlayerSkinColor.java:26-30 | a successful read consumes exactly three items: the two longs and the string it returns |
| `PacketPlayerSkinColor.Packet.constructor` | core/src/ethanjones/cubes/networking/packets/PacketPlayerSkinColor.java:15-17 | a new packet has a null UUID and a null colour |
| `PacketPlayerSkinColor.Packet.Write` | core/src/ethanjones/cubes/networking/packets/PacketPlayerSkinColor.java:19-24 | a null UUID fails with a NullPointerException before anything is written; otherwise the encoded items are appended |
| `PacketPlayerSkinColor.Packet.Read` | core/src/ethanjones/cubes/networking/packets/PacketPlayerSkinColor.java:26-30 | on success sets the UUID and the colour and moves past them; on a failure passes it on, the UUID set only if both longs were read and the colour unchanged |
| `PacketPlayerSkinColor.RoundTrip` | core/src/ethanjones/cubes/networking/packets/PacketPlayerSkinColor.java:19-30 | reading back what write emitted, wherever it lies in the stream, restores the UUID and the colour, a null colour coming back as "default" |
| `Wire.LongAt` | core/src/ethanjones/cubes/networking/packets/PacketPlayerSkinColor.java:28 | a long read succeeds exactly when a long is next |
| `Wire.UtfAt` | core/src/ethanjones/cubes/networking/packets/PacketPlayerSkinColor.java:29 | a string read succeeds exactly when a string is next |
| `Wire.DataOutput.WriteLong` | core/src/ethanjones/cubes/networking/packets/PacketPlayerSkinColor.java:21-22 | appends one long |
| `Wire.DataOutput.WriteUtf` | core/src/ethanjones/cubes/networking/packets/PacketPlayerSkinColor.java:23 | appends one string |
| `Wire.DataInput.ReadLong` | core/src/ethanjones/cubes/networking/packets/PacketPlayerSkinColor.java:28 | reads the next long and moves past it, or fails without moving |
| `Wire.DataInput.ReadUtf` | core/src/ethanjones/cubes/networking/packets/PacketPlayerSkinColor.java:29 | reads the next string and moves past it, or fails without moving |
| `RunnableQueue.SpawnedAppend` | core/src/ethanjones/cubes/core/util/RunnableQueue.java:26-28 | the tasks added by running one more task are appended after those added before |
| `RunnableQueue.Queue.constructor` | core/src/ethanjones/cubes/core/util/RunnableQueue.java:11-13 | both queues empty and the counter at 0 |
| `RunnableQueue.Queue.Add` | core/src/ethanjones/cubes/core/util/RunnableQueue.java:15-21 | the task goes to the end of queue A while the counter is even and of queue B while it is odd; nothing else changes |
| `RunnableQueue.Queue.Run` | core/src/ethanjones/cubes/core/util/RunnableQueue.java:27 | running a task records it and lets the tasks it adds go to the queue the counter now selects |
| `RunnableQueue.Queue.RunAll` | core/src/ethanjones/cubes/core/util/RunnableQueue.java:23-29 | increments the counter (with 32-bit wrap-around) and runs exactly the tasks of the queue its old parity selected, in FIFO order, leaving that queue empty; tasks they add go to the other queue and wait for the next pass |
| `RunnableQueue.Queue.DrainA` | core/src/ethanjones/cubes/core/util/RunnableQueue.java:26-28 | runs queue A to empty in order while additions go to queue B |
| `RunnableQueue.Queue.DrainB` | core/src/ethanjones/cubes/core/util/RunnableQueue.java:26-28 | runs queue B to empty in order while additions go to queue A |
| `RunnableQueue.Queue.IterableView` | core/src/ethanjones/cubes/core/util/RunnableQueue.java:31-43 | a snapshot of queue A followed by queue B, removing nothing |
| `RunnableQueue.ParityFlips` | core/src/ethanjones/cubes/core/util/RunnableQueue.java:24 | incrementing the counter, even past Integer.MAX_VALUE, always flips its parity, so consecutive passes alternate queues |
| `IteratorClient.Lines` | core/src/ethanjones/cubes/core/util/iterator/IteratorClient.java:25-26 | one line per element: its inspect() text, or "<null element>" |
| `IteratorClient.InspectAll` | core/src/ethanjones/cubes/core/util/iterator/IteratorClient.java:11-32 | the listing the loop builds is exactly the specified one: "<null collection>", or the element lines up to the limit, a truncation line, and "<empty>" when nothing was listed |
| `IteratorClient.LinesAppend` | core/src/ethanjones/cubes/core/util/iterator/IteratorClient.java:25-27 | listing one more element appends its line |
| `IteratorClient.ListingShape` | core/src/ethanjones/cubes/core/util/iterator/IteratorClient.java:13-30 | a null collection gives one marker line; an empty one gives "<empty>"; with a positive limit at most limit+1 lines, the last being the truncation line when elements remain; without a limit every element is listed |
| `LruMap.Without` | core/src/ethanjones/cubes/world/save/CachingSaveDecorator.java:44-49 | the order without one key: the same keys but that one, still distinct |
| `LruMap.Get` | core/src/ethanjones/cubes/world/save/CachingSaveDecorator.java:98 | a hit returns the mapped value and keeps every mapping; a miss returns null and changes nothing |
| `LruMap.Evicted` | core/src/ethanjones/cubes/world/save/CachingSaveDecorator.java:46-48 | only inserting a new key evicts |
| `LruMap.GetValid` | core/src/ethanjones/cubes/world/save/CachingSaveDecorator.java:44-49 | a get keeps the access order valid and within the bound |
| `LruMap.PutValid` | core/src/ethanjones/cubes/world/save/CachingSaveDecorator.java:44-49 | a put keeps the keys distinct, all mapped, and no more than the bound |
| `LruMap.PutLookup` | core/src/ethanjones/cubes/world/save/CachingSaveDecorator.java:44-49 | after a put the key maps to the new value; any other key keeps its value unless it was the eldest and was evicted |
| `LruMap.EvictsEldest` | core/src/ethanjones/cubes/world/save/CachingSaveDecorator.java:46-48 | inserting a new key into a full cache evicts the least recently accessed key |
| `LruMap.SizeBound` | core/src/ethanjones/cubes/world/save/CachingSaveDecorator.java:44-49 | a valid cache maps at most the bound's number of keys |
| `CachingSaveDecorator.Stored` | core/src/ethanjones/cubes/world/save/CachingSaveDecorator.java:104 | the wrapped save returns the stored value exactly when the key is stored, else null |
| `CachingSaveDecorator.AreaKeyInjective` | core/src/ethanjones/cubes/world/save/CachingSaveDecorator.java:74-80 | the key "x_z" identifies the coordinates: equal keys if and only if equal coordinates |
| `CachingSaveDecorator.CachingSave.constructor` | core/src/ethanjones/cubes/world/save/CachingSaveDecorator.java:37-64 | three empty caches with the given bound over the wrapped save |
| `CachingSaveDecorator.NewCachingSave` | core/src/ethanjones/cubes/world/save/CachingSaveDecorator.java:37-44 | a negative size fails with IllegalArgumentException, as the first `LinkedHashMap` refuses it; any other size gives a fresh decorator with three empty caches of that bound over the wrapped save |
| `CachingSaveDecorator.CachingSave.Default` | core/src/ethanjones/cubes/world/save/CachingSaveDecorator.java:70-72 | the same with a bound of 50 |
| `CachingSaveDecorator.CachingSave.WriteArea` | core/src/ethanjones/cubes/world/save/CachingSaveDecorator.java:82-91 | writes through; only an accepted write is cached; the answer is the wrapped save's; every cached value agrees with the save |
| `CachingSaveDecorator.CachingSave.ReadArea` | core/src/ethanjones/cubes/world/save/CachingSaveDecorator.java:93-109 | the result is always what the wrapped save holds; a hit does not read the wrapped save; a miss reads it once and caches a non-null area |
| `CachingSaveDecorator.CachingSave.WriteCave` | core/src/ethanjones/cubes/world/save/CachingSaveDecorator.java:111-117 | writes through and always caches, a null cave included |
| `CachingSaveDecorator.CachingSave.ReadCave` | core/src/ethanjones/cubes/world/save/CachingSaveDecorator.java:119-135 | the result is what the wrapped save holds; a cached non-null cave skips the wrapped save; a null or missing entry reads it and caches a non-null cave |
| `CachingSaveDecorator.CachingSave.WritePlayer` | core/src/ethanjones/cubes/world/save/CachingSaveDecorator.java:137-142 | writes through and caches the player under its UUID |
| `CachingSaveDecorator.CachingSave.ReadPlayer` | core/src/ethanjones/cubes/world/save/CachingSaveDecorator.java:144-158 | the result is what the wrapped save holds; a hit skips the wrapped save; a miss reads it once and caches a non-null player |
| `CachingSaveDecorator.CachingSave.ClearCache` | core/src/ethanjones/cubes/world/save/CachingSaveDecorator.java:163-167 | empties the three caches and leaves the wrapped save as it was |
| `CachingSaveDecorator.CachingSave.CacheStats` | core/src/ethanjones/cubes/world/save/CachingSaveDecorator.java:173-178 | the bound and the three cache sizes, none above the bound |
| `CachingSaveDecorator.KeyedAgreeWrite` | core/src/ethanjones/cubes/world/save/CachingSaveDecorator.java:82-117 | writing through and caching the same value keeps every cached value equal to the saved one |
| `CachingSaveDecorator.AgreeWrite` | core/src/ethanjones/cubes/world/save/CachingSaveDecorator.java:137-142 | the same for the player cache |
| `CachingSaveDecorator.PutKeeps` | core/src/ethanjones/cubes/world/save/CachingSaveDecorator.java:44-49 | every entry a put leaves is the one put or one that was there with its value |
| `PerformanceSaveDecorator.Recorded` | core/src/ethanjones/cubes/world/save/PerformanceSaveDecorator.java:61-66 | one more duration: the total grows by it, the count by one, the minimum and maximum take it in when it is lower or higher |
| `PerformanceSaveDecorator.MulMono` | core/src/ethanjones/cubes/world/save/PerformanceSaveDecorator.java:61-66 | multiplying by a count keeps order (used for the statistics invariant) |
| `PerformanceSaveDecorator.LowerStep` | core/src/ethanjones/cubes/world/save/PerformanceSaveDecorator.java:62-64 | recording keeps count times minimum at or below the total |
| `PerformanceSaveDecorator.UpperStep` | core/src/ethanjones/cubes/world/save/PerformanceSaveDecorator.java:62-65 | recording keeps the total at or below count times maximum |
| `PerformanceSaveDecorator.RecordedConsistent` | core/src/ethanjones/cubes/world/save/PerformanceSaveDecorator.java:55-66 | recording a long duration keeps the statistics consistent: fresh while empty, otherwise min <= max and count*min <= total <= count*max |
| `PerformanceSaveDecorator.RecordAllFromFresh` | core/src/ethanjones/cubes/world/save/PerformanceSaveDecorator.java:55-66 | recording a series of durations counts each once, totals them, and stays consistent |
| `PerformanceSaveDecorator.AverageBetween` | core/src/ethanjones/cubes/world/save/PerformanceSaveDecorator.java:68-70 | the average of recorded durations lies between their minimum and maximum |
| `PerformanceSaveDecorator.UpdateTwice` | core/src/ethanjones/cubes/world/save/PerformanceSaveDecorator.java:75-80 | recording into the entry a lookup stored is recording into the looked-up entry |
| `PerformanceSaveDecorator.OperationStats.constructor` | core/src/ethanjones/cubes/world/save/PerformanceSaveDecorator.java:55-59 | new statistics: zero total and count, minimum Long.MAX_VALUE, maximum 0 |
| `PerformanceSaveDecorator.OperationStats.Record` | core/src/ethanjones/cubes/world/save/PerformanceSaveDecorator.java:61-66 | the fields become the recorded statistics |
| `PerformanceSaveDecorator.PerformanceSave.constructor` | core/src/ethanjones/cubes/world/save/PerformanceSaveDecorator.java:39-44 | no statistics, with the given logging flag and threshold |
| `PerformanceSaveDecorator.PerformanceSave.Default` | core/src/ethanjones/cubes/world/save/PerformanceSaveDecorator.java:51-53 | logging on with a 100 ms threshold |
| `PerformanceSaveDecorator.PerformanceSave.RecordOperation` | core/src/ethanjones/cubes/world/save/PerformanceSaveDecorator.java:73-86 | the name's statistics (fresh on first use) record the duration; a warning is logged exactly when logging is on and the duration exceeds the threshold; every name keeps its own statistics object |
| `PerformanceSaveDecorator.PerformanceSave.LogIfSlow` | core/src/ethanjones/cubes/world/save/PerformanceSaveDecorator.java:83-85 | the slow-operation warning, exactly when slow |
| `PerformanceSaveDecorator.PerformanceSave.RecordInto` | core/src/ethanjones/cubes/world/save/PerformanceSaveDecorator.java:80 | records the duration into the name's statistics only |
| `PerformanceSaveDecorator.PerformanceSave.StatsFor` | core/src/ethanjones/cubes/world/save/PerformanceSaveDecorator.java:75-79 | the name's statistics object, created fresh and stored on first use, shared with no other name |
| `PerformanceSaveDecorator.PerformanceSave.Timed` | core/src/ethanjones/cubes/world/save/PerformanceSaveDecorator.java:88-163 | each timed operation returns the wrapped save's result unchanged and records its duration under the operation's name |
| `PerformanceSaveDecorator.PerformanceSave.GetPerformanceStats` | core/src/ethanjones/cubes/world/save/PerformanceSaveDecorator.java:188-202 | exactly the statistics recorded, per name, each consistent |
| `PerformanceSaveDecorator.PerformanceSave.ResetStats` | core/src/ethanjones/cubes/world/save/PerformanceSaveDecorator.java:207-211 | forgets every operation's statistics |
| `Commands.Set` | core/src/ethanjones/cubes/core/command/PlaceBlockCommand.java:27 | after setBlock the cell at the position is the one written and every other cell is unchanged |
| `Commands.SetBack` | core/src/ethanjones/cubes/core/command/PlaceBlockCommand.java:24-33 | writing back what a cell held restores the whole world |
| `Commands.World.SetBlock` | core/src/ethanjones/cubes/core/command/PlaceBlockCommand.java:27 | the world becomes the one with that cell written |
| `Commands.PlaceBlockCommand.constructor` | core/src/ethanjones/cubes/core/command/PlaceBlockCommand.java:14-21 | holds the world, block, position and meta |
| `Commands.PlaceBlockCommand.Execute` | core/src/ethanjones/cubes/core/command/PlaceBlockCommand.java:23-28 | records the block and meta found at the position, then writes the new block with its meta |
| `Commands.PlaceBlockCommand.Undo` | core/src/ethanjones/cubes/core/command/PlaceBlockCommand.java:30-33 | writes the recorded block and meta back |
| `Commands.BreakBlockCommand.constructor` | core/src/ethanjones/cubes/core/command/BreakBlockCommand.java:11-16 | holds the world and position |
| `Commands.BreakBlockCommand.Execute` | core/src/ethanjones/cubes/core/command/BreakBlockCommand.java:18-22 | records the block found, then writes air |
| `Commands.BreakBlockCommand.Undo` | core/src/ethanjones/cubes/core/command/BreakBlockCommand.java:24-27 | writes the recorded block back with meta 0 |
| `Commands.BreakThenUndo` | core/src/ethanjones/cubes/core/command/BreakBlockCommand.java:18-27 | breaking then undoing brings the block back with meta 0 and leaves every other cell alone; the world is restored exactly when the meta was 0 |
| `Commands.SetIn` | core/src/ethanjones/cubes/core/command/PlaceBlockCommand.java:27 | setBlock on one world changes that world's cell and no other world |
| `Commands.SetInBack` | core/src/ethanjones/cubes/core/command/PlaceBlockCommand.java:24-33 | writing back what a cell of one world held restores every world |
| `Commands.ExecAll` | core/src/ethanjones/cubes/core/command/CompositeCommand.java:13-16 | running the sub-commands' writes in insertion order, each on its own world, keeps the set of worlds and keeps each well-formed |
| `Commands.Trace` | core/src/ethanjones/cubes/core/command/CompositeCommand.java:13-16 | one found cell per sub-command run |
| `Commands.UndoAll` | core/src/ethanjones/cubes/core/command/CompositeCommand.java:18-24 | writing back in reverse insertion order keeps the set of worlds and keeps each well-formed |
| `Commands.LastOf` | core/src/ethanjones/cubes/core/command/CompositeCommand.java:9-11 | the last position at or after `i` holding the same command: nothing later repeats it |
| `Commands.RecordsAfter` | core/src/ethanjones/cubes/core/command/CompositeCommand.java:13-16 | one record per sub-command after execute |
| `Commands.RecordsAfterLast` | core/src/ethanjones/cubes/core/command/CompositeCommand.java:13-16 | after execute, a sub-command added more than once holds what its last run found (a later run of the same object overwrites the earlier record) |
| `Commands.RecordsAfterStep` | core/src/ethanjones/cubes/core/command/CompositeCommand.java:15 | one more run changes the record of that command at every position it occupies, and no other record |
| `Commands.UndoAllRestores` | core/src/ethanjones/cubes/core/command/CompositeCommand.java:13-24 | undoing, last first, what each run found restores every world the runs started from |
| `Commands.RestoreInverts` | core/src/ethanjones/cubes/core/command/PlaceBlockCommand.java:24-33 | a sub-command's undo writes back exactly what it found if and only if it places, or the meta found was 0 (BreakBlockCommand.java:18-27) |
| `Commands.CompositeRoundTrip` | core/src/ethanjones/cubes/core/command/CompositeCommand.java:13-24 | a composite's execute then undo restores every world when no sub-command was added twice and each sub-undo writes back what it found |
| `Commands.RestoresFound` | core/src/ethanjones/cubes/core/command/CompositeCommand.java:18-24 | when no sub-command repeats and every one inverts, what the undos write is what the executes found |
| `Commands.RepeatedPlaceNotRestored` | core/src/ethanjones/cubes/core/command/CompositeCommand.java:9-24 | a place command added twice records its own block on the second run, so execute then undo does not restore a world where that cell held something else |
| `Commands.ExecPrefixStep` | core/src/ethanjones/cubes/core/command/CompositeCommand.java:15 | one more sub-command extends the run and its trace by that command's write |
| `Commands.LastOfStep` | core/src/ethanjones/cubes/core/command/CompositeCommand.java:15 | the last occurrence in a prefix one longer is the new command when it is the same, otherwise unchanged |
| `Commands.UndoPrefixStep` | core/src/ethanjones/cubes/core/command/CompositeCommand.java:21-23 | undoing one more sub-command undoes the last first |
| `Commands.CompositeCommand.constructor` | core/src/ethanjones/cubes/core/command/CompositeCommand.java:7 | no sub-commands |
| `Commands.CompositeCommand.Add` | core/src/ethanjones/cubes/core/command/CompositeCommand.java:9-11 | appends the command, whether or not it is already there |
| `Commands.CompositeCommand.Execute` | core/src/ethanjones/cubes/core/command/CompositeCommand.java:13-16 | for any sub-commands, on any worlds and repeated or not: every world becomes the one running every sub-command's write in insertion order, and each sub-command's record is what its last run found |
| `Commands.CompositeCommand.ExecuteEach` | core/src/ethanjones/cubes/core/command/CompositeCommand.java:15 | the for-each loop: the same, over the sub-commands and worlds as they were on entry |
| `Commands.CompositeCommand.ExecuteNext` | core/src/ethanjones/cubes/core/command/CompositeCommand.java:15 | one pass carries the worlds and records one command on |
| `Commands.CompositeCommand.ExecuteOne` | core/src/ethanjones/cubes/core/command/CompositeCommand.java:15 | one sub-command's execute: its world's write, its own record, and no other sub-command's record |
| `Commands.CompositeCommand.Undo` | core/src/ethanjones/cubes/core/command/CompositeCommand.java:18-24 | for any sub-commands: every world becomes the one writing back each sub-command's current record, last added first |
| `Commands.CompositeCommand.UndoEach` | core/src/ethanjones/cubes/core/command/CompositeCommand.java:21-23 | the reverse loop: the same, over the sub-commands and records as they were on entry |
| `Commands.CompositeCommand.UndoNext` | core/src/ethanjones/cubes/core/command/CompositeCommand.java:22 | one pass carries the worlds one command back and changes no record |
| `Commands.CompositeCommand.UndoOne` | core/src/ethanjones/cubes/core/command/CompositeCommand.java:22 | one sub-command's undo writes its record back on its world and changes no record |
| `BlockTextures.Six` | core/src/ethanjones/cubes/graphics/world/block/BlockTextureHandler.java:71-72 | six references to the same region |
| `BlockTextures.KeyHash` | core/src/ethanjones/cubes/graphics/world/block/BlockTextureHandlers.java:60-64 | the key's hash is a 32-bit int |
| `BlockTextures.KeyHashByIdentityHashes` | core/src/ethanjones/cubes/graphics/world/block/BlockTextureHandlers.java:58-65 | the hash depends only on the regions' identity hashes, so distinct regions with coinciding identity hashes collide (hence equals compares references) |
| `BlockTextures.EqualKeysEqualHashes` | core/src/ethanjones/cubes/graphics/world/block/BlockTextureHandlers.java:67-78 | keys equal under equals have equal hashes |
| `BlockTextures.Key.constructor` | core/src/ethanjones/cubes/graphics/world/block/BlockTextureHandlers.java:58-65 | the loop computes h = 31*h + identityHash over the six regions, from 1, with 32-bit wrap-around |
| `BlockTextures.Key.Equals` | core/src/ethanjones/cubes/graphics/world/block/BlockTextureHandlers.java:69-78 | true exactly for the same key or a non-null key whose six regions are the same objects position by position |
| `BlockTextures.BlockTextureHandler.Wrap` | core/src/ethanjones/cubes/graphics/world/block/BlockTextureHandler.java:27 | the handler keeps the array it is given |
| `BlockTextures.BlockTextureHandler.Create` | core/src/ethanjones/cubes/graphics/world/block/BlockTextureHandler.java:22-28 | a null array or a length other than 6 is refused with "Texture region array must be length 6", a null region with "Texture region cannot be null"; otherwise a handler over the array itself, not a copy |
| `BlockTextures.BlockTextureHandler.GetSideAt` | core/src/ethanjones/cubes/graphics/world/block/BlockTextureHandler.java:44-46 | the region of the index, or the index error outside the array |
| `BlockTextures.BlockTextureHandler.GetSide` | core/src/ethanjones/cubes/graphics/world/block/BlockTextureHandler.java:40-42 | a null face reads face 0, any other its index |
| `BlockTextures.BlockTextureHandler.SideAlwaysPresent` | core/src/ethanjones/cubes/graphics/world/block/BlockTextureHandler.java:22-42 | every face of a constructed handler has a region that is never null |
| `BlockTextures.UniformRegions` | core/src/ethanjones/cubes/graphics/world/block/BlockTextureHandler.java:68-74 | a null region is refused; otherwise a fresh array of six references to it |
| `BlockTextures.CopyOf` | core/src/ethanjones/cubes/graphics/world/block/BlockTextureHandlers.java:35-46 | a fresh array with the same six references |
| `BlockTextures.BlockTextureHandlers.constructor` | core/src/ethanjones/cubes/graphics/world/block/BlockTextureHandlers.java:19 | an empty cache |
| `BlockTextures.BlockTextureHandlers.CachedValid` | core/src/ethanjones/cubes/graphics/world/block/BlockTextureHandlers.java:40-51 | every cached handler has six non-null regions |
| `BlockTextures.BlockTextureHandlers.GetOrCreate` | core/src/ethanjones/cubes/graphics/world/block/BlockTextureHandlers.java:40-51 | a cached combination returns the shared handler and changes nothing; otherwise a handler over a fresh copy is created and cached, or with a null region refused and nothing cached |
| `BlockTextures.BlockTextureHandlers.Uniform` | core/src/ethanjones/cubes/graphics/world/block/BlockTextureHandlers.java:25-28 | a null region is refused; otherwise the one shared handler whose six faces are that region |
| `BlockTextures.BlockTextureHandlers.WithSide` | core/src/ethanjones/cubes/graphics/world/block/BlockTextureHandlers.java:34-38 | the shared handler of the base's regions with one face replaced, leaving the base untouched; a null face throws; replacing a face by its own region gives the base back |
| `BlockTextures.BlockTextureHandlers.SetSide` | core/src/ethanjones/cubes/graphics/world/block/BlockTextureHandler.java:62-66 | an index outside 0..5 throws; otherwise as withSide at that face |
| `Blocks.NewBlock` | core/src/ethanjones/cubes/block/Block.java:33-48 | a null id or one without ':' is refused with IllegalArgumentException("id is not in the correct format"), as an if-and-only-if; otherwise the id is lower-cased, intID 0, no texture handlers, mining time 0.5, pickaxe, level 1, any item allowed |
| `Blocks.IdKeepsColon` | core/src/ethanjones/cubes/block/Block.java:43-45 | a built block's id still contains ':' after lower-casing |
| `Blocks.GetTextureHandler` | core/src/ethanjones/cubes/block/Block.java:54-57 | a meta outside the array reads handler 0; before the handlers are loaded the access throws |
| `Blocks.NameKey` | core/src/ethanjones/cubes/block/Block.java:64 | "block." followed by the id, every character other than ':' kept in place |
| `Blocks.NameCandidates` | core/src/ethanjones/cubes/block/Block.java:63-66 | the two localisation keys, "key.meta" first and then "key" |
| `Blocks.NameKeyReplacesFirstColon` | core/src/ethanjones/cubes/block/Block.java:64 | the first ':' of the id becomes '.' and what precedes it is unchanged |
| `Blocks.CanMineAsWrittenRejectsStrongerTool` | core/src/ethanjones/cubes/block/Block.java:94-99 | as written, a level-2 pickaxe cannot mine a level-1 pickaxe-only block that a level-0 pickaxe can |
| `Blocks.CanMine` | core/src/ethanjones/cubes/block/Block.java:94-99 | with the intended comparison: any item when miningOther, otherwise exactly a tool of the mining type whose level reaches the block's level |
| `Blocks.CanMineMonotone` | core/src/ethanjones/cubes/block/Block.java:94-99 | with the intended comparison, a higher-level tool mines whatever a lower one of the same type mines |
| `Blocks.CanMineAgreesWhenMiningOther` | core/src/ethanjones/cubes/block/Block.java:94-99 | when any item may mine, both rules allow every item |
| `Blocks.MiningSpeed` | core/src/ethanjones/cubes/block/Block.java:104-109 | 1 unless the item is a tool of the block's type; then twice the tool level widened to a float, which is the exact doubled level up to 2^24 in size |
| `Blocks.MiningSpeedMonotone` | core/src/ethanjones/cubes/block/Block.java:104-109 | a matching tool's speed grows with its level while the doubled level fits in an int, float rounding included |
| `Blocks.MiningSpeedRounds` | core/src/ethanjones/cubes/block/Block.java:108 | a tool of level 2^24 + 1 mines at 2^25: the widening to float rounds |
| `JavaInts.IntToFloat` | core/src/ethanjones/cubes/block/Block.java:108 | Java's int-to-float widening: exact up to 2^24 in size, else rounded to a 24-bit significand, ties to even |
| `JavaInts.RoundHalfEven` | core/src/ethanjones/cubes/block/Block.java:108 | a multiple of the step, within one step of the value, and the value itself when it is a multiple |
| `JavaInts.IntToFloatMonotone` | core/src/ethanjones/cubes/block/Block.java:108 | the widening keeps the order of integers |
| `JavaInts.IntToFloatRounds` | core/src/ethanjones/cubes/block/Block.java:108 | 2^25 + 2 widens to 2^25 |
| `Blocks.IsTransparent` | core/src/ethanjones/cubes/block/Block.java:72-82 | a plain block is never transparent |
| `Blocks.LightLevel` | core/src/ethanjones/cubes/block/Block.java:68-70 | a plain block gives no light |
| `Blocks.DisplayMetaValues` | core/src/ethanjones/cubes/block/Block.java:84-86 | only meta 0 is shown |
| `GeneratorManager.Generators.constructor` | core/src/ethanjones/cubes/world/generator/GeneratorManager.java:14-28 | the four built-in ids core:smooth, core:basic, core:test, core:void, in that order, all with the one strategy factory |
| `GeneratorManager.Generators.Register` | core/src/ethanjones/cubes/world/generator/GeneratorManager.java:30-34 | a null or empty id throws NullPointerException and an id already present throws IllegalStateException("id has already been registered"), changing nothing; otherwise the id is added at the end with its factory |
| `GeneratorManager.Generators.GetTerrainGenerator` | core/src/ethanjones/cubes/world/generator/GeneratorManager.java:36-40 | the factory of the world type if it is registered, else IllegalStateException("No such generator type"), as an if-and-only-if |
| `GeneratorManager.Generators.TerrainGeneratorExists` | core/src/ethanjones/cubes/world/generator/GeneratorManager.java:42-44 | holds exactly for registered ids, and exactly when getTerrainGenerator would succeed |
| `GeneratorManager.Generators.Ids` | core/src/ethanjones/cubes/world/generator/GeneratorManager.java:50-53 | every registered id once, in registration order |
| `GeneratorManager.Generators.IdsCount` | core/src/ethanjones/cubes/world/generator/GeneratorManager.java:50-53 | there are as many ids as registered factories |
| `GeneratorManager.NameKey` | core/src/ethanjones/cubes/world/generator/GeneratorManager.java:46-48 | "terrain." followed by the id with its first ':' made '.'; a null id throws |
| `BlockFactoryRegistry.Replay` | core/src/ethanjones/cubes/block/factories/BlockFactoryRegistry.java:11-13 | the map a series of registrations leaves has at most one entry per registration |
| `BlockFactoryRegistry.LastRegistered` | core/src/ethanjones/cubes/block/factories/BlockFactoryRegistry.java:11-13 | the factory found was registered for that id |
| `BlockFactoryRegistry.ReplayIsLastRegistration` | core/src/ethanjones/cubes/block/factories/BlockFactoryRegistry.java:11-13 | each id maps to the factory of its most recent registration; an id never registered is absent |
| `BlockFactoryRegistry.Registry.constructor` | core/src/ethanjones/cubes/block/factories/BlockFactoryRegistry.java:9 | an empty registry |
| `BlockFactoryRegistry.Registry.Register` | core/src/ethanjones/cubes/block/factories/BlockFactoryRegistry.java:11-13 | binds the id to the factory, replacing any earlier binding |
| `BlockFactoryRegistry.Registry.Create` | core/src/ethanjones/cubes/block/factories/BlockFactoryRegistry.java:15-19 | the factory registered last for the id; an id never registered throws IllegalArgumentException("Unknown block ID: id") |
| `SettingGroup.SettingGroup.constructor` | core/src/ethanjones/cubes/core/settings/SettingGroup.java:14-19 | no children and the empty key |
| `SettingGroup.SettingGroup.ShouldDisplay` | core/src/ethanjones/cubes/core/settings/SettingGroup.java:39-47 | a group is always displayed |
| `SettingGroup.SettingGroup.AddLeaf` | core/src/ethanjones/cubes/core/settings/SettingGroup.java:21-25 | appends a leaf with the key and returns the group itself |
| `SettingGroup.SettingGroup.AddGroup` | core/src/ethanjones/cubes/core/settings/SettingGroup.java:27-32 | names the child group, appends it and returns the group itself; the parent keeps its own name and the child keeps its children (when they are different groups); a null group throws before anything changes |
| `SettingGroup.SettingGroup.GetChildGroup` | core/src/ethanjones/cubes/core/settings/SettingGroup.java:73-81 | the first direct child that is a group with the key, or null when none is; leaves are never returned; a null key throws exactly when some child is a group |
| `LogWriterProxy.LogWriter.Log` | core/src/ethanjones/cubes/core/logging/LogWriterProxy.java:25-41 | the real writer receives the entry |
| `LogWriterProxy.LogWriter.Dispose` | core/src/ethanjones/cubes/core/logging/LogWriterProxy.java:43-48 | the real writer is disposed once more |
| `LogWriterProxy.LogWriterFactory.Create` | core/src/ethanjones/cubes/core/logging/LogWriterProxy.java:14-19 | a fresh writer, counted |
| `LogWriterProxy.Passed` | core/src/ethanjones/cubes/core/logging/LogWriterProxy.java:21-23 | the calls that pass the level filter, in order: exactly those at or above the minimum |
| `LogWriterProxy.PassedAppend` | core/src/ethanjones/cubes/core/logging/LogWriterProxy.java:25-41 | one more call adds itself to the passed ones only if it passes |
| `LogWriterProxy.LogWriterProxy.constructor` | core/src/ethanjones/cubes/core/logging/LogWriterProxy.java:9-12 | no writer yet and nothing logged |
| `LogWriterProxy.LogWriterProxy.GetRealWriter` | core/src/ethanjones/cubes/core/logging/LogWriterProxy.java:14-19 | the writer, created through the factory on first use and the same one afterwards |
| `LogWriterProxy.LogWriterProxy.Log` | core/src/ethanjones/cubes/core/logging/LogWriterProxy.java:25-41 | a call below the minimum neither creates nor reaches the writer; one that passes creates the writer if need be and reaches it; the factory is used at most once, and the writer receives exactly the calls that passed, in order |
| `LogWriterProxy.LogWriterProxy.Dispose` | core/src/ethanjones/cubes/core/logging/LogWriterProxy.java:43-48 | disposes the real writer if one was created, and nothing otherwise |
| `TerrainGenerator.CodeRoundTrip` | core/src/ethanjones/cubes/world/generator/TerrainGenerator.java:82-89 | for an id below 2^20 the stored code gives back the id in its low 20 bits and the meta's low byte in the next 8 |
| `TerrainGenerator.VisibleOnlyAddsFlag` | core/src/ethanjones/cubes/world/generator/TerrainGenerator.java:96-103 | the code `setVisible` stores has every visibility bit set, and its other bits are those of the code `set` stores |
| `TerrainGenerator.Set` | core/src/ethanjones/cubes/world/generator/TerrainGenerator.java:82-89 | the position gets the block's code (0 for a null block); nothing else in the area changes |
| `TerrainGenerator.SetVisible` | core/src/ethanjones/cubes/world/generator/TerrainGenerator.java:96-103 | the position gets the code of `set` with the visibility flag (0 for a null block); nothing else changes |
| `TerrainGenerator.SetNeighbour` | core/src/ethanjones/cubes/world/generator/TerrainGenerator.java:91-94 | the block goes into the neighbouring area at coordinates relative to that area's minimum block |
| `TerrainGenerator.SetVisibleNeighbour` | core/src/ethanjones/cubes/world/generator/TerrainGenerator.java:105-108 | as `SetNeighbour`, with the visibility flag |
| `BasicTerrainGenerator.GeneratedMetaZero` | core/src/ethanjones/cubes/world/generator/BasicTerrainGenerator.java:16-33 | every code the generator writes carries meta 0 when the block ids fit below the meta bits |
| `BasicTerrainGenerator.OnlyLayersWithoutExtras` | core/src/ethanjones/cubes/world/generator/BasicTerrainGenerator.java:16-33 | without the extras exactly the five layers of each column inside the area are written, each with its layer's block |
| `BasicTerrainGenerator.ColumnLayers` | core/src/ethanjones/cubes/world/generator/BasicTerrainGenerator.java:18-24 | a column holds bedrock, stone, stone, dirt, grass from the bottom up, and nothing at height 5 |
| `BasicTerrainGenerator.CellStep` | core/src/ethanjones/cubes/world/generator/BasicTerrainGenerator.java:18-24 | writing one layer block extends the written part of the scan by that block |
| `BasicTerrainGenerator.LayeredAll` | core/src/ethanjones/cubes/world/generator/BasicTerrainGenerator.java:16-25 | once every row is done, exactly the layer positions have been overwritten |
| `BasicTerrainGenerator.BasicTerrainGenerator.constructor` | core/src/ethanjones/cubes/world/generator/BasicTerrainGenerator.java:12-14 | the generator is "old" exactly when the seed is the string "old"; a null seed is not |
| `BasicTerrainGenerator.BasicTerrainGenerator.SetColumn` | core/src/ethanjones/cubes/world/generator/BasicTerrainGenerator.java:19-24 | the five layers of one column, extending the scan by a column |
| `BasicTerrainGenerator.BasicTerrainGenerator.SetRow` | core/src/ethanjones/cubes/world/generator/BasicTerrainGenerator.java:18-25 | every column of one row |
| `BasicTerrainGenerator.BasicTerrainGenerator.SetExtras` | core/src/ethanjones/cubes/world/generator/BasicTerrainGenerator.java:27-32 | the four extra blocks overwrite their positions; nothing else changes |
| `BasicTerrainGenerator.BasicTerrainGenerator.GenerateTerrain` | core/src/ethanjones/cubes/world/generator/BasicTerrainGenerator.java:16-33 | every position holds the code the generator defines for it (extras winning over layers, extras only in area (0, 0) of an "old" generator) and every other position keeps its old code |
| `BasicTerrainGenerator.BasicTerrainGenerator.GenerateCaves` | core/src/ethanjones/cubes/world/generator/TerrainGenerator.java:37-40 | the default caves hook changes no block |
| `BasicTerrainGenerator.BasicTerrainGenerator.GenerateVegetation` | core/src/ethanjones/cubes/world/generator/TerrainGenerator.java:42-45 | the default vegetation hook changes no block |
| `BasicTerrainGenerator.BasicTerrainGenerator.GenerateStructures` | core/src/ethanjones/cubes/world/generator/TerrainGenerator.java:47-50 | the default structures hook changes no block |
| `BasicTerrainGenerator.BasicTerrainGenerator.GenerateDecorations` | core/src/ethanjones/cubes/world/generator/TerrainGenerator.java:52-55 | the default decorations hook changes no block |
| `BasicTerrainGenerator.BasicTerrainGenerator.PostProcess` | core/src/ethanjones/cubes/world/generator/TerrainGenerator.java:57-60 | the default post-processing hook changes no block |
| `BasicTerrainGenerator.BasicTerrainGenerator.GenerateArea` | core/src/ethanjones/cubes/world/generator/TerrainGenerator.java:13-31 | runs the six hooks in the template's order; the area ends exactly as `GenerateTerrain` leaves it |
| `BasicTerrainGenerator.BasicTerrainGenerator.Generate` | core/src/ethanjones/cubes/world/generator/TerrainGenerator.java:64-66 | runs the terrain hook alone: every position gets the code the layers and extras put there, and every other position keeps its code |
| `BasicTerrainGenerator.BasicTerrainGenerator.Features` | core/src/ethanjones/cubes/world/generator/TerrainGenerator.java:68-74 | runs caves, vegetation, structures and decorations in that order and leaves the area unchanged |
| `BasicTerrainGenerator.BasicTerrainGenerator.SpawnPoint` | core/src/ethanjones/cubes/world/generator/BasicTerrainGenerator.java:37-40 | block (0, 5, 0): free of every generated block, directly above the grass of the first column |
| `EnhancedJavaParser.CutFrom` | diagrams/enhanced_java_parser.py:83-98 | the scan from a position cuts the line at a "//" it takes as a comment, or at the end |
| `EnhancedJavaParser.CommentStart` | diagrams/enhanced_java_parser.py:77-100 | the cut of a line lies within the line |
| `EnhancedJavaParser.CommentStartIsFirst` | diagrams/enhanced_java_parser.py:77-100 | a line is cut at the first "//" outside every string and char literal, and kept whole when there is none |
| `EnhancedJavaParser.EscapedCharIgnored` | diagrams/enhanced_java_parser.py:86-89 | a backslash makes the literal tracking ignore the next character, whatever it is |
| `EnhancedJavaParser.NoCommentInString` | diagrams/enhanced_java_parser.py:90-96 | inside a string literal a "//" never starts a comment |
| `EnhancedJavaParser.CutLine` | diagrams/enhanced_java_parser.py:78-100 | the line-scan loop returns the line up to its first real comment start |
| `EnhancedJavaParser.CutLines` | diagrams/enhanced_java_parser.py:77-100 | as many lines as before, each cut at its comment start |
| `EnhancedJavaParser.LinesKept` | diagrams/enhanced_java_parser.py:74-102 | splitting the result of the line pass at newlines gives back exactly the cut lines |
| `EnhancedJavaParser.CloseFrom` | diagrams/enhanced_java_parser.py:105 | a found comment close is a "*" "/" pair at or after the position |
| `EnhancedJavaParser.BlockCommentsRemoved` | diagrams/enhanced_java_parser.py:105 | the non-greedy block-comment substitution never lengthens the text |
| `EnhancedJavaParser.NoBlockCommentKept` | diagrams/enhanced_java_parser.py:105 | a text with no "/*" is unchanged |
| `EnhancedJavaParser.BlockCommentRemoved` | diagrams/enhanced_java_parser.py:105 | a comment whose text holds no close is removed through its close, and the text before it is kept |
| `EnhancedJavaParser.LeadingCommentRemoved` | diagrams/enhanced_java_parser.py:105 | a text that starts with such a comment loses it |
| `EnhancedJavaParser.RemoveComments` | diagrams/enhanced_java_parser.py:71-107 | the line pass, then the block-comment substitution |
| `EnhancedJavaParser.OpenFrom` | diagrams/enhanced_java_parser.py:163-165 | the first '{' at or after the start, or a position past the end when there is none |
| `EnhancedJavaParser.MatchFrom` | diagrams/enhanced_java_parser.py:175-181 | the matching scan stops within the text |
| `EnhancedJavaParser.BodyBalanced` | diagrams/enhanced_java_parser.py:161-183 | "" when no '{' follows the start; otherwise the body never closes more braces than it opens, and when it stops early it is balanced and followed by the closing '}' |
| `EnhancedJavaParser.BodyFromBalanced` | diagrams/enhanced_java_parser.py:170-183 | the text after a '{' up to its matching '}', or the rest when unbalanced, is never over-closed |
| `EnhancedJavaParser.ExtractClassBody` | diagrams/enhanced_java_parser.py:161-183 | the two loops return the class body the matching scan defines |
| `EnhancedJavaParser.Kept` | diagrams/enhanced_java_parser.py:361-362 | no more pieces than were cut |
| `EnhancedJavaParser.StripAll` | diagrams/enhanced_java_parser.py:361-362 | each piece stripped, in order |
| `EnhancedJavaParser.PiecesAbsorb` | diagrams/enhanced_java_parser.py:359-369 | a text whose commas are all nested joins the current piece whole, moving the depth by its net bracket count |
| `EnhancedJavaParser.PiecesOfJoin` | diagrams/enhanced_java_parser.py:359-369 | pieces that close what they open and hold commas only nested, joined by commas, are cut back into exactly those pieces |
| `EnhancedJavaParser.SplitAtTopLevelCommas` | diagrams/enhanced_java_parser.py:355-369 | the split happens at depth-0 commas and nowhere else: such pieces come back stripped and in order |
| `EnhancedJavaParser.PlainListPieces` | diagrams/enhanced_java_parser.py:355-369 | a two-part list with no brackets splits into its two stripped parts |
| `EnhancedJavaParser.SplitParameters` | diagrams/enhanced_java_parser.py:355-369 | the split loop returns the non-blank stripped top-level pieces |
| `EnhancedJavaParser.Feed` | diagrams/enhanced_java_parser.py:360-369 | one turn of the split loop keeps the pieces still to come unchanged |
| `EnhancedJavaParser.SplitEnd` | diagrams/enhanced_java_parser.py:360-363 | a depth-0 comma keeps the stripped piece when it is not blank |
| `EnhancedJavaParser.AnnotationsRemoved` | diagrams/enhanced_java_parser.py:373 | removing annotations never lengthens a piece and keeps one with no '@' |
| `EnhancedJavaParser.FinalRemoved` | diagrams/enhanced_java_parser.py:374 | removing `final` never lengthens a piece |
| `EnhancedJavaParser.FinalAbsentKept` | diagrams/enhanced_java_parser.py:374 | a piece with no "final" is kept |
| `EnhancedJavaParser.ParameterOf` | diagrams/enhanced_java_parser.py:376-383 | a parameter's name is a single word |
| `EnhancedJavaParser.ParameterOfJoined` | diagrams/enhanced_java_parser.py:376-383 | two or more plain words give the parameter named by the last word, typed by the words before it, cleaned |
| `EnhancedJavaParser.ParametersOf` | diagrams/enhanced_java_parser.py:371-383 | at most one parameter per piece |
| `EnhancedJavaParser.Parameters` | diagrams/enhanced_java_parser.py:351-352 | a blank parameter list gives no parameters |
| `EnhancedJavaParser.ParseParameters` | diagrams/enhanced_java_parser.py:347-385 | the split loop and the parameter loop give the parameters of the pieces that have one, in order |
| `EnhancedJavaParser.CleanTypeName` | diagrams/enhanced_java_parser.py:398-409 | "void" for an empty name, "" for a blank one |
| `EnhancedJavaParser.CleanPlainTypeName` | diagrams/enhanced_java_parser.py:403-407 | a name with no '[' becomes its words joined by single spaces |
| `EnhancedJavaParser.VisibilityOf` | diagrams/enhanced_java_parser.py:387-396 | one of public, private, protected and package |
| `EnhancedJavaParser.VisibilityPrecedence` | diagrams/enhanced_java_parser.py:387-396 | the visibility of a list is the highest-ranked of its parts' (public > private > protected > package), whatever the order of the modifiers |
| `EnhancedJavaParser.VisibilityOfKeyword` | diagrams/enhanced_java_parser.py:387-396 | a single visibility keyword gives itself |
| `CompleteXmiGenerator.GenericFrom` | diagrams/complete_xmi_generator.py:205 | the leftmost match of the generic-argument pattern at or after a position, or none when no match exists there |
| `CompleteXmiGenerator.FirstGeneric` | diagrams/complete_xmi_generator.py:205 | the leftmost match of the generic-argument pattern, or none |
| `CompleteXmiGenerator.GenericEnd` | diagrams/complete_xmi_generator.py:205 | a match ends at the first '>' after its '<', with at least one character between |
| `CompleteXmiGenerator.LastPiece` | diagrams/complete_xmi_generator.py:210 | the last part holds no separator, and a text without one is its own last part |
| `CompleteXmiGenerator.Unarrayed` | diagrams/complete_xmi_generator.py:200 | a type with no '[' is unchanged |
| `CompleteXmiGenerator.GenericPart` | diagrams/complete_xmi_generator.py:203-214 | a type with no '<' is unchanged |
| `CompleteXmiGenerator.LastSegment` | diagrams/complete_xmi_generator.py:220-221 | the result holds no '.', and a name with no '.' is unchanged |
| `CompleteXmiGenerator.ExtractBaseType` | diagrams/complete_xmi_generator.py:194-223 | "" for "", and the result never holds a '.' |
| `CompleteXmiGenerator.QualifiedKept` | diagrams/complete_xmi_generator.py:199-217 | a qualified name passes the array, generic and strip steps unchanged |
| `CompleteXmiGenerator.QualifiedLast` | diagrams/complete_xmi_generator.py:220-221 | the last dotted segment of a qualified name is its last part |
| `CompleteXmiGenerator.BaseOfQualified` | diagrams/complete_xmi_generator.py:194-223 | a qualified name gives its last part, so a plain name gives itself |
| `CompleteXmiGenerator.ReplaceArraySuffix` | diagrams/complete_xmi_generator.py:200 | removing "[]" from a name followed by "[]" gives the name |
| `CompleteXmiGenerator.BaseOfArray` | diagrams/complete_xmi_generator.py:199-200 | an array type has the base type of its element type |
| `CompleteXmiGenerator.GenericPartOfGeneric` | diagrams/complete_xmi_generator.py:203-212 | the generic step on `C<inner>` gives the stripped last comma part of `inner` |
| `CompleteXmiGenerator.BaseOfGeneric` | diagrams/complete_xmi_generator.py:194-223 | `C<inner>` gives the base type of the last comma part of its arguments, as `Map<K, V>` gives that of `V` |
| `CompleteXmiGenerator.BaseTypeOfQualified` | diagrams/complete_xmi_generator.py:219-221 | a fully qualified class name gives its simple name |
| `CompleteXmiGenerator.AnyContained` | diagrams/complete_xmi_generator.py:236-238 | true exactly when one of the names occurs in the type |
| `CompleteXmiGenerator.IsCollectionType` | diagrams/complete_xmi_generator.py:225-244 | true exactly when a listed collection name or "[]" occurs in the type |
| `CompleteXmiGenerator.CollectionTypeExtended` | diagrams/complete_xmi_generator.py:225-244 | a type holding a collection type is one too, whatever surrounds it |
| `CompleteXmiGenerator.ArrayIsCollection` | diagrams/complete_xmi_generator.py:240-242 | every array type is a collection type |
| `CompleteXmiGenerator.ListedIsCollection` | diagrams/complete_xmi_generator.py:227-238 | each listed name is a collection type |
| `CompleteXmiGenerator.ParseVisibility` | diagrams/complete_xmi_generator.py:321-332 | + - # ~ give public, private, protected and package; anything else gives public; package exactly for ~ |
| `CompleteXmiGenerator.ParseVisibilityInjective` | diagrams/complete_xmi_generator.py:321-332 | the four symbols give four different visibilities |
| `CompleteXmiGenerator.AttributeOf` | diagrams/complete_xmi_generator.py:260-278 | an empty symbol gives public; static and readonly exactly when the modifiers mention them; the name, and the type stripped |
| `CompleteXmiGenerator.AttributeDefaultVisibility` | diagrams/complete_xmi_generator.py:260 | a missing visibility symbol reads as '+' |
| `CompleteXmiGenerator.ParamOf` | diagrams/complete_xmi_generator.py:306-310 | a parameter exactly when the stripped part holds a ':' |
| `CompleteXmiGenerator.ParamsOf` | diagrams/complete_xmi_generator.py:305-310 | at most one parameter per part |
| `CompleteXmiGenerator.ParamsOfCount` | diagrams/complete_xmi_generator.py:305-310 | the number of parameters is the number of parts holding a ':' |
| `CompleteXmiGenerator.MethodOf` | diagrams/complete_xmi_generator.py:289-319 | "void" when no return type is given; public for an empty symbol; no parameters for a blank list; at most one per comma part |
| `CompleteXmiGenerator.MethodParamsNeedColon` | diagrams/complete_xmi_generator.py:304-310 | a parameter list without ':' gives no parameters |
| `CompleteXmiGenerator.KindOf` | diagrams/complete_xmi_generator.py:177-182 | composition exactly for a read-only attribute or a type mentioning "final" in any case; otherwise aggregation exactly for a collection type; otherwise a plain association |
| `CompleteXmiGenerator.KnownClasses` | diagrams/complete_xmi_generator.py:166-168 | every class name of the table is known |
| `CompleteXmiGenerator.KnownClassesExactly` | diagrams/complete_xmi_generator.py:166-168 | the known names are exactly the class names of the table |
| `CompleteXmiGenerator.AssociationOf` | diagrams/complete_xmi_generator.py:173-189 | an association exactly when the attribute's base type is a known class other than the source, with that target, its kind and the attribute's name |
| `CompleteXmiGenerator.AttributeAssociations` | diagrams/complete_xmi_generator.py:172-191 | at most one association per attribute, each from the source to another known class |
| `CompleteXmiGenerator.ClassAssociationsSound` | diagrams/complete_xmi_generator.py:175 | every derived association goes to a known class other than its source |
| `CompleteXmiGenerator.AttributeAssociationsComplete` | diagrams/complete_xmi_generator.py:172-191 | every attribute whose base type is another known class gives its association |
| `CompleteXmiGenerator.ClassAssociationsComplete` | diagrams/complete_xmi_generator.py:171-191 | each class's associations are among the table's |
| `CompleteXmiGenerator.XmiGenerator.constructor` | diagrams/complete_xmi_generator.py:12-17 | no associations yet |
| `CompleteXmiGenerator.XmiGenerator.GenerateAssociationsFromAttributes` | diagrams/complete_xmi_generator.py:161-192 | appends, class by class and attribute by attribute, the associations of the table's known classes |
| `CompleteXmiGenerator.XmiGenerator.KnownClassNames` | diagrams/complete_xmi_generator.py:166-168 | the first loop collects exactly the known class names |
| `CompleteXmiGenerator.XmiGenerator.AddAttributeAssociations` | diagrams/complete_xmi_generator.py:172-191 | appends the associations of one class's attributes, in order |
| `CompleteXmiGenerator.AssociationsExactlyKnown` | diagrams/complete_xmi_generator.py:166-191 | every attribute whose base type is another known class of the table yields its association, so with the soundness lemma nothing is missed and nothing extra is made |

## Left out

- The networking engine's socket monitor is a state (none, active, disposed) and its two packet queues are sequences held by the session; its threads, the packet-id database and the packet directions are not part of this model. The client session and the handshake take the outcomes of opening a socket and of the handshake as `Result` parameters.
- Logging calls (`Log.*`) are not modelled; the handlers, the session and the handshake only log around the decisions that are modelled. The one log argument that can fail, the remote address that `disconnected` reads from its monitor, is modelled as the NullPointerException it throws for a null monitor.
- ClientNetworking: the `pingTime` field and `PING_NANOSECONDS` are only set or read by the ping-response handling elsewhere, and are left out. `Cubes.tickMS` is a parameter of the ping interval.
- ServerConnectionInitializer: the `Branding` version numbers are parameters, and the executor thread that runs the check is left out. Only the decision on the intent byte and the written fields are modelled.
- The handler chain: the validation handler only logs, and the direction handler defers to the packet directions, which are not part of this model. Handler objects are values owning their successor, so aliasing of one handler in two chains is not captured.
- PacketPlayerSkinColor: `handlePacket` looks the player up in the client world, which is not part of this model. Only the write/read field layout is modelled.
- Wire: streams hold typed values (long, int, UTF string, byte), not bytes; the byte encoding of the Java data streams is not modelled.
- RunnableQueue: the concurrent queue and the atomic counter are modelled sequentially. A runnable is a value, and what running it adds to the queue is a `spawn` parameter.
- IteratorClient: the text an element's own `inspect` gives is a parameter (an optional string per element).
- CachingSaveDecorator: the wrapped save is a set of maps. CacheStats gives the three sizes and the maximum; the `String.format` text is written out but no contract ties it to the sizes beyond its construction.
- PerformanceSaveDecorator: durations come from a clock and are a parameter of each operation. Recorded adds totals as unbounded integers, so it does not model the wrap-around of the `long` total. `logPerformanceStats` and its `%.2f` formatting are left out.
- PerformanceSaveDecorator.PerformanceSave.GetPerformanceStats: returns each name's statistics record, not the `"count=%d, avg=%.2fms, min=%dms, max=%dms"` text that `getPerformanceStats` formats from it; the `double` division of the average and its `%.2f` rounding are not modelled.
- Movement: the float speeds are exact reals (4.5, 7.0, 2.0, 10.0 are exact in `float`). The state objects are values of one datatype, so the identity of the context's state instances is not captured.
- ParseContext and the tokens: a string is a sequence of Unicode characters, so a position counts characters, where a Java `String` position counts UTF-16 units; inputs with characters outside the Basic Multilingual Plane (two units each in Java) are not modelled.
- The number token's digit test is over ASCII digits only, where Java's `Character.isDigit` also accepts other Unicode digits. The whitespace test is Java's `Character.isWhitespace` over the characters it lists.
- Commands.BreakBlockCommand: `World` is not part of this model; the world is a store of cells that returns what was last set. The four-argument `setBlock(block, x, y, z)` that `undo` calls is taken to write meta 0, so the lemmas that say a break is undone exactly when the meta found was 0 (`Commands.BreakThenUndo`, `Commands.RestoreInverts`) rest on that reading.
- Commands.CompositeCommand: a sub-command is a place or a break command. A composite added to a composite is not modelled: a composite added to itself makes `execute` recurse without end, and the model would need a depth bound that the source does not have.
- Block: `loadGraphics` builds handlers through a `BlockTextureHandler(String)` constructor that is not part of this model. The item form, drops, placement, face rendering, render type, button presses, block data, random ticks and the mining time are not modelled; they are graphics or world code.
- Blocks.NewBlock: the id is lower-cased over ASCII letters only. Java's `String.toLowerCase()` maps every Unicode letter and depends on the default locale (the Turkish dotted and dotless i), so ids with other letters are not modelled.
- BlockTextures: `resolve(id)` and the `String` overloads of `uniform` and `withSide` look textures up in the asset manager, which is not part of this model. Regions are opaque values.
- BlockFactoryRegistry: the block a factory builds is not part of this model; a factory is an opaque value.
- SettingGroup: `getActor` builds a UI widget and is left out; `getChildren` and `getUnlocalizedName` only return fields.
- TerrainGenerator: `getRainStatus` returns a constant weather state over float coordinates and is left out. `setNeighbour` and `setVisibleNeighbour` take the area that `Area.neighbourBlockCoordinates(x, z)` looks up as a parameter; that lookup among the loaded areas is not modelled. The area's write lock, its `setupArrays` and `Area.getRef` are not part of this model; an area's blocks are a map keyed by position.
- BasicTerrainGenerator: the palette blocks and `Area.SIZE_BLOCKS` are parameters of the generator.
- The diagram tools: file reading and writing, the argument parsing, the PlantUML and XMI document building and the `print` calls are left out. The regular expressions are modelled as the functions they compute over the modelled strings. `.lower()` is ASCII lower-casing and `\w` is taken over ASCII; `strip()` removes the characters `str.isspace` accepts, and `split()` without a separator (`PyStrings.Words`) splits at runs of the characters `str.isspace` accepts and drops empty pieces; every other modelled `split` has an explicit separator.

## Findings

| source | as written | input that shows it | evidently intended | confidence | as-written member | corrected member |
|---|---|---|---|---|---|---|
| core/src/ethanjones/cubes/block/Block.java:98 | a tool of the right type may mine the block only when its level is at most the block's required level | a block that needs a level-1 pickaxe and does not allow other items: a level-2 pickaxe is refused while a level-0 pickaxe is accepted | a tool may mine when its level is at least the required level, so a better tool mines whatever a weaker one does | high, not executed | `Blocks.CanMineAsWrittenRejectsStrongerTool` | `Blocks.CanMineMonotone` |
