# The HTTP parser and what is built on it

A Dafny model of the incremental HTTP/1.x parser `src/common/http_parser.cpp`, of the two parsers
that rebuild requests and replies from its callbacks, of the printers and URL splitters around
them, and of the server's session as an event machine; with proofs of what they promise.

`dafny verify dfyconfig.toml` checks the whole project.

## How it is laid out

The parser is modelled twice.

- `Transitions` says what one byte does in each state, with the callbacks it makes and the slices
  it marks. `Machine` folds that over the input of one call: no jump, no inner loop, no position in
  a buffer. It keeps, as bits of its own, what the jumps of the source make visible: whether the
  rest of a value may be skipped unseen, and whether a call ends inside a name or a value and so
  counts one byte too many.
- `HttpParsers.HttpParser` is the object of the source, with its fields, its mark variables, the
  inner loops over names and values, the `memchr` jump and the jumps over bodies. `Execute` is proved
  to do, for every buffer, what the byte machine does. What is proved about the machine is therefore
  proved about the object. The one thing that the jumps change, where the header limit is noticed, is
  said in `Limits`.

On the machine rest the invariant behind all assertions of the source (`Invariant`), that cuts
between calls do not matter (`Traces`, `Segmentation`), what names, methods, lengths, lists and
codings are recognised as (`Methods`, `FieldNames`, `Lengths`, `Connections`, `Codings`), how
header lines, first lines, bodies and chunks are read (`Runs`, `Headers`, `Folds`, `Lines`, `FirstLines`,
`Ends`, `Chunks`, `Sizes`), that a line feed alone ends a line and how a parser of either kind settles
(`LineEnds`), what the end of the input does (`Endings`), where errors come from (`Refusals`), that slices
and bodies are conserved and bodies are as long as announced (`Framing`, `Accounts`), when another
protocol is asked for (`Wishes`), that messages do not see each other (`Pipelining`), and where cuts
inside names and values are seen (`Cuts`). `Heads`, `Exchanges`, `Messages` and `Receivers` read whole
messages with header lines of every kind, any number in one call, up to the wrappers. `Alphabets` and
`UrlForms` say letter by letter what the character classes and the URL automaton stand for. `Packets`,
`RequestParsers`, `ReplyParsers`, `RoundTrips`, `Requests`, `Replies` and `Deliveries` lead from the
printers through the whole automaton back to the packets, `Overruns` is about input that is taken
whole and refused. `Urls`, `Authorities` and `UrlReaders` treat the URL splitters, `Sessions` and `Services` the server.

A byte is a `char`; every `char` from 128 up is treated as the tables treat the bytes 128..255. The
default build is modelled: strict, not lenient, a header limit of 80 KiB. The callbacks return 0,
as all callbacks of the repository do; the limit of `nread` to 32 bits is a precondition on the
length of one buffer, that of URL offsets to 16 bits one on the length of a URL.

## What the code does that one would not expect

These are modelled as they are, and the claims carry the conditions that they force.

- A call that ends inside a header name or value counts one byte too many (http_parser.cpp:1428, 1720).
- In one call only the first byte of the rest of an unknown header's value is checked; the jump passes
  over control bytes that a cut would bring to light. `Segmentation.CutsMatterExactly` says exactly when
  cuts matter, `Deliveries.HiddenByteIsMet` gives such a request.
- The first byte of a value is never checked at all (http_parser.cpp:1460-1520).
- `unhex` has 128 entries of 256, so the bytes from 128 up are the hexadecimal digit 0
  (`Chunks.HighBytesAreZeros`).
- `F_CONTENTLENGTH` is set by any name that begins with "content-length", and a second such name is
  refused before it ends (`FieldNames.NameIsRead`).
- In a Connection list the beginning of a known token swallows the comma behind it, so
  "clos,keep-alive" sets no flag; `Connections.AllAreSeen` says exactly which lists are read in full.
- A header line that is continued forgets what it ended with: a known token, or chunked, in front of the
  line end sets no flag (`Folds.FoldIsRead`). A tab in front of a token hides the rest of a Connection
  list (`Folds.TabHidesRest`).
- Each line end in front of a reply is reported as the beginning of a message (`FirstLines.LineEndsAreTold`).
- The count is not begun anew at the end of a trailer, so a message behind a chunked one starts with
  less than the whole header limit; `Pipelining.Pipelining` carries the count along.
- The wrappers append neither names nor values, so a cut inside one breaks a header in two or loses the
  front of its value; `Cuts.HeadersSeeCuts` says exactly when.
- A header that breaks the limit at the very end of a buffer lets `http_parser_execute` return the
  whole length with an error set, which the wrappers then take for an unfinished message.
  `Overruns.TakenWholeAndRefused` says exactly for which input, `Overruns.CarryLongName` gives one.
- `stock_reply` and `to_string` both add Content-Length, so the server's own stock replies are refused
  by the parser of replies (`Replies.CarryStock`).
- The port of a URL is converted without regard to the end of the buffer; `Urls.SplitIsPartition`
  needs that no digit follows in memory.

## Model

| member | source | states |
|---|---|---|
| HttpParsers.HttpParser.constructor | src/common/http_parser.cpp:2182-2191 | a fresh parser waits for the start of a message of its type, with no error and nothing counted |
| HttpParsers.HttpParser.Execute | src/common/http_parser.cpp:636-2128 | one call with any buffer: if it ends without error, the parser, the count, the callbacks and the number of bytes are those of the byte machine; it ends so exactly if the byte machine meets no error within the header limit; any other error, its place, which is before the end, and the callbacks before it are the byte machine's too; the header limit is reported exactly where `Limits.Limit` says that the count is looked at and too high, with that number of bytes, those callbacks and that parser; a parser in error is left alone; the end of input is as the source says |
| HttpParsers.HttpParser.ScanField | src/common/http_parser.cpp:1306-1426 | the inner loop over a field name stops at the first byte that is no token, having done what the byte machine does letter by letter, and without a look at the header limit |
| HttpParsers.HttpParser.ScanValue | src/common/http_parser.cpp:1522-1718 | the inner loop over a value, with its jump, stops at the first CR or LF, having done what the byte machine does byte by byte, or goes to the end of the buffer with the header limit left behind |
| HttpParsers.HttpParser.LineEnd | src/common/http_parser.cpp:1551-1576 | the jump lands on the first CR or LF, and on the end of the buffer if there is none within the limit |
| HttpParsers.Memchr | src/common/http_parser.cpp:1559-1560 | the first place of a byte within a stretch, or -1 if it is not there |
| HttpParsers.HttpParser.BodyBytes | src/common/http_parser.cpp:1918-1957 | the jump over the bytes of a body that are there takes as many as are wanted, marks them once and leaves the rest of the length |
| HttpParsers.HttpParser.LastBodyByte | src/common/http_parser.cpp:1935-1968 | the last byte of a body, looked at twice, is handed over with the others, completes the message, and stops the call if there is an upgrade |
| HttpParsers.HttpParser.LineEndByte | src/common/http_parser.cpp:1528-1541 | the line end behind a value hands the value over once, before the byte for CR and before looking again for LF |
| HttpParsers.SkipValue | src/common/http_parser.cpp:1551-1576 | jumping over the rest of a value is taking its bytes one by one |
| HttpParsers.SkipBody | src/common/http_parser.cpp:1918-1957 | jumping over bytes of a body, or of a chunk, is taking them one by one |
| HttpParsers.SkipTooMuch | src/common/http_parser.cpp:1555-1576 | a value in which no line end is found within the limit breaks the limit, whatever follows |
| Invariant.InitInv | src/common/http_parser.cpp:2182-2191 | a fresh parser meets the invariant |
| Invariant.TransitionInv | src/common/http_parser.cpp:711-2095 | every byte in every state keeps the invariant and the discipline of the marks |
| Invariant.RunInv | src/common/http_parser.cpp:704-2096 | so does every run of bytes |
| Invariant.AssertsFollow | src/common/http_parser.cpp:1422-1423 | the invariant implies the assertions on header states, on the count at a chunk size, on the chunked flag, on the length of bodies and chunks, and that no state is unhandled |
| Segmentation.AssertsAlwaysHold | src/common/http_parser.cpp:1923-2092 | from a fresh parser of any type, after any calls at all, also behind an upgrade and with the empty input that ends it, and any bytes of another one, the assertions hold |
| HttpParsers.MarksAtEnd | src/common/http_parser.cpp:2108-2118 | at the end of a call at most one mark is set, and the five leftover callbacks come to that one |
| Segmentation.OneCallDoesAll | src/common/http_parser.cpp:679-2120 | what can be fed in non-empty pieces, one call for each, can be fed in one call: same state, same callbacks once adjacent slices of one kind are joined, and a count that is smaller by less than the number of pieces |
| Segmentation.CutsDoNotMatter | src/common/http_parser.cpp:679-2120 | where the bytes in values are allowed there and the pieces stay within the limit, pieces are accepted exactly if the whole is |
| Segmentation.JumpHidesControlBytes | src/common/http_parser.cpp:1543-1576 | without the first condition this fails: every control byte behind a byte of an unknown value is accepted in one call, and refused in two |
| Segmentation.CutsMatterExactly | src/common/http_parser.cpp:1543-1576 | input that one call takes, with room for two more bytes in the limit, can be cut at every place exactly if every byte in a value is one that is allowed there |
| Deliveries.HiddenByteIsMet | src/common/http_parser.cpp:1543-1576 | such input exists from the start: a request with a control byte in a value that one call takes and two calls refuse |
| Segmentation.BytesDoNotSeeCuts | src/common/http_request_parser.cpp:7-19 | the bytes of the URL and of the body, appended slice by slice, are the same however the input is cut |
| Segmentation.HeaderBound | src/common/http_parser.cpp:154-161 | after calls without error the count is at least the header bytes since it last began anew, exceeds them by at most one for each call, and is within 80 KiB |
| Machine.ShortIsNotOver | src/common/http_parser.cpp:154-161 | input that fits what is left of the limit never exceeds it |
| Machine.RefusedIsUnused | src/common/http_parser.cpp:2122-2128 | a run of the byte machine that refuses a byte leaves that byte unused, so any error but the header limit returns less than the length |
| Overruns.NoticedAtEndIff | src/common/http_parser.cpp:1428-1433 | the header limit is noticed at the very end of the input exactly if a name or a value that begins within the limit runs to that end, or to where no line end is in sight, and passes the limit |
| Overruns.TakenWholeAndRefused | src/common/http_parser.cpp:1428-1433 | a call returns the whole length of its input with an error exactly for such input |
| Overruns.LongNameOverruns | src/common/http_parser.cpp:1428-1433 | such as a request line and a name of 81904 letters or more, not yet at its end |
| Overruns.CarryLongName | src/common/http_request_parser.cpp:62-81 | the wrapper finds that input unfinished, with a parser in error |
| Framing.NoByteTwice | src/common/http_parser.cpp:104-141 | the slices of a call, one behind the other, are its input with some bytes left out: none outside the buffer, none twice, in order |
| Methods.MethodByte | src/common/http_parser.cpp:1001-1059 | in the method state the bytes so far are the beginning of the name of the guessed method, and every accepted letter keeps it so |
| Methods.MethodIsRead | src/common/http_parser.cpp:958-1059 | each of the 33 names and a space are accepted, and give the method of that name |
| Methods.MethodIsAName | src/common/http_parser.cpp:958-1059 | a word and a space are accepted exactly if the word is one of the 33 names of a table written out, and the method is then the one beside it |
| FieldNames.NameIsRead | src/common/http_parser.cpp:1256-1443 | a token name and its colon are read and reported whole; the one thing refused is a second name that begins with content-length |
| FieldNames.NameIsRecognised | src/common/http_parser.cpp:1256-1440 | behind the colon the header state knows a name exactly if it is one of the five, each letter of it that letter or its capital by two alphabets written out; the length flag is set exactly by names that begin so with content-length |
| FieldNames.SpellingIsRecognised | src/common/http_parser.cpp:1256-1440 | each of the five names, with any choice of capitals, is accepted and recognised, unless it is a second Content-Length |
| Alphabets.TokensAre | src/common/http_parser.cpp:189-221 | a token character is a letter, a digit or one of fifteen marks, all written out |
| Alphabets.TokenSpells | src/common/http_parser.cpp:189-221 | the token table takes a byte for a letter or a dash exactly if it is that letter, its capital or the dash |
| Alphabets.LowerSpells | src/common/http_parser.cpp:414-414 | so does LOWER, for every byte that a value may hold |
| Alphabets.HexDigitsAre | src/common/http_parser.cpp:224-233 | below 128 the hexadecimal digits are the 22 that are written out, each with its value |
| Alphabets.HeaderCharsAre | src/common/http_parser.cpp:440-445 | a value may hold printable characters, space, tab, line ends and all bytes from 128 up |
| Alphabets.UserinfoCharsAre | src/common/http_parser.cpp:419-424 | the userinfo characters are letters, digits and two lists of marks, all written out |
| Lengths.LengthIsRead | src/common/http_parser.cpp:1485-1608 | a Content-Length value is accepted exactly if it is a decimal, spaces aside, of at most 2^64-7; the number stored is the number read |
| Chunks.SizeIsRead | src/common/http_parser.cpp:1970-2021 | a text of digits is accepted for a chunk size exactly if the number that it makes is at most 2^64-17, and that is stored; what a digit is worth is said in `Alphabets.HexDigitsAre` and `Sizes` |
| Sizes.SizeIsBase16 | src/common/http_parser.cpp:1970-2021 | a text that is n in base 16, each digit from either of two alphabets written out, is read as n up to 2^64-17 and refused above that |
| Sizes.OtherByteIsRefused | src/common/http_parser.cpp:1975-2005 | a byte below 128 that is none of these digits, and does not end the size, is refused wherever it stands |
| Sizes.WrittenRoundTrip | src/common/http_parser.cpp:1961-2089 | a chunked body with its sizes in base 16, in any mixture of cases, with zeros in front and any extensions, is undone under any segmentation within the limit |
| Sizes.ChunksAreRead | src/common/http_parser.cpp:1961-2089 | chunks printed with sizes in lower case: the callbacks tell each size, its bytes and one end of message, and the parser behind them is written out |
| Chunks.HighBytesAreZeros | src/common/http_parser.cpp:1975-2011 | a byte from 128 up passes for the digit 0, since the table says nothing about it |
| Connections.ConnectionIsRead | src/common/http_parser.cpp:1494-1765 | a Connection list of tokens and spaces: as the next line begins the flags are those of the tokens that are seen, a comma behind the beginning of a known token being swallowed |
| Connections.VisibleAreSeen | src/common/http_parser.cpp:1622-1710 | the flags added are those of the known tokens in the list, in any letter case, without the item behind each one that swallows its comma |
| Connections.AllAreSeen | src/common/http_parser.cpp:1622-1710 | the flags added are those of all known tokens in the list exactly if none is hidden at every place where it stands, unless its flag was set before; where no comma is swallowed none is hidden |
| Connections.SwallowedTokenIsLost | src/common/http_parser.cpp:1658-1666 | a swallowed comma hides the token behind it, whatever that is, and no more |
| Connections.ClosHidesKeepAlive | src/common/http_parser.cpp:1658-1666 | the line with clos,keep-alive is accepted and sets no flag |
| Folds.BlanksAreDiscarded | src/common/http_parser.cpp:1445-1458 | any number of spaces and tabs behind a colon is left out of the value |
| Folds.FoldIsRead | src/common/http_parser.cpp:1738-1761 | a line that begins with a blank is told as a value of its own, with its blank; what the line before ended with, be it a known token or a coding, sets no flag any more |
| Folds.ListIsFolded | src/common/http_parser.cpp:1512-1514 | a Connection list that ends with a comma goes on in such a line |
| Folds.LengthIsNotFolded | src/common/http_parser.cpp:1485-1492 | a Content-Length does not go on in such a line: it is refused |
| Folds.TabHidesRest | src/common/http_parser.cpp:1622-1645 | where a token of a Connection list may begin, a tab is not skipped, since LOWER has changed it; the rest of the line is not seen |
| Codings.CodingIsRead | src/common/http_parser.cpp:1475-1483 | a Transfer-Encoding value sets the chunked flag, as the next line begins, exactly if it is chunked in any letter case, by the two alphabets, followed by spaces only |
| Heads.UpgradeIsRead | src/common/http_parser.cpp:1466-1473 | behind the name upgrade every clean value but the empty one sets the upgrade flag as the next line begins, and no other flag |
| Heads.LineIsRead | src/common/http_parser.cpp:1256-1765 | a header line of any of five kinds, named in any letter case, is told by its name and value and sets exactly the flags of its kind: Connection those of its visible tokens, Upgrade its own, Transfer-Encoding that of chunked, Content-Length its own and the length, any other none |
| Heads.LinesAreRead | src/common/http_parser.cpp:1256-1765 | so does any list of such lines with at most one length |
| Wishes.TransitionWishes | src/common/http_parser.cpp:711-2095 | every byte in every state keeps the upgrade flag to what has been told: a value that is not empty behind a name that is upgrade in any letter case |
| Wishes.WishIsTold | src/common/http_parser.cpp:1466-1473 | from the start of a message, after any calls, outside a trailer: the upgrade flag is set exactly if such a value has been told, and behind the header another protocol takes over exactly if a Connection flag asks for it too or the method is CONNECT |
| Headers.AllAreRead | src/common/http_parser.cpp:1256-1765 | any list of lines with plain names and clean values is read, each byte counted once |
| Headers.ToldAndOwed | src/common/http_parser.cpp:1774-1803 | names and values are reported one for one, an empty value when the next line begins |
| LineEnds.LineFeedEndsLine | src/common/http_parser.cpp:1134-1254 | wherever a line may end, a line feed alone ends it as CR LF does: same parser, callbacks and marks, and at most one byte less is counted |
| LineEnds.EitherReadsReplies | src/common/http_parser.cpp:723-747 | a parser of either kind that meets HT goes on, whatever follows, as a parser of replies does |
| LineEnds.EitherReadsHead | src/common/http_parser.cpp:743-758 | one that meets HE goes on as a parser of requests does |
| LineEnds.EitherReadsRequests | src/common/http_parser.cpp:723-745 | and so does one that meets any other first letter |
| UrlForms.UrlsAre | src/common/http_parser.cpp:489-607 | a request line may hold exactly a slash or a star and printable characters, or a schema of letters, its delimiter, and an authority of the characters written out, without two signs at side by side, with a tail of printable characters from a slash or a question mark on |
| UrlForms.TunnelUrlsAre | src/common/http_parser.cpp:489-607 | a CONNECT request may hold exactly such an authority and tail, if they are not empty |
| Lines.UrlIsRead | src/common/http_parser.cpp:1061-1132 | a URL that the automaton accepts is read up to the space and reported whole |
| Lines.ReqVersionIsRead | src/common/http_parser.cpp:1134-1254 | a printed version with a major number from 1 and numbers up to 999 is read and stored |
| Lines.StatusLineIsRead | src/common/http_parser.cpp:762-956 | a printed status line with a reason is read, and its numbers are stored |
| FirstLines.LooseLineIsRead | src/common/http_parser.cpp:1061-1140 | any number of further spaces in front of the URL and of the version changes nothing |
| FirstLines.ShortLineIsRead | src/common/http_parser.cpp:1107-1122 | a request line without a version is read as one of version 0.9 |
| FirstLines.AnyNumberIsRead | src/common/http_parser.cpp:1165-1232 | a number of the first line, whatever its digits, is stored exactly if it is at most 999, and refused with the error of its kind if not; only the major number of a request may not begin with a zero |
| FirstLines.BareStatusIsRead | src/common/http_parser.cpp:874-956 | a status line without a reason, with or without a space behind its code and any number in front, is read, and no reason is told |
| FirstLines.LineEndsAreSkipped | src/common/http_parser.cpp:958-965 | line ends in front of a request are taken without a callback |
| FirstLines.LineEndsAreTold | src/common/http_parser.cpp:762-790 | each line end in front of a reply is told as the beginning of a message |
| Refusals.ErrorSaysWhere | src/common/http_parser.cpp:704-2096 | a run that is refused has taken the bytes that it reports as used, and its error is one of those written out for the state that they lead to |
| Endings.EndIsAccepted | src/common/http_parser.cpp:656-677 | the end of the input after any calls: if no message is open, by the callbacks, it is accepted without one; if one is open it is refused, unless its body lasts until the end, which completes it, or only line ends have come in front of a reply |
| Ends.HeadEndIsRead | src/common/http_parser.cpp:1806-1916 | the empty line behind a header with a known length: the header is complete, and so is the message if the length is 0 or the method CONNECT; the upgrade is set exactly if it is asked for, and the call leaves where no body comes before it |
| Ends.BodyIsRead | src/common/http_parser.cpp:1918-1968 | a body of known length is delivered whole, the message is complete with its last byte, and the call leaves there exactly if an upgrade was asked for |
| Chunks.PieceIsRead | src/common/http_parser.cpp:1970-2089 | one chunk with an extension is delivered whole, and the count begins anew |
| Chunks.MessageIsRead | src/common/http_parser.cpp:1961-2089 | a chunked body with a trailer, in one call: the chunks are delivered, and the one message-complete comes with the last byte |
| Chunks.ChunkedRoundTrip | src/common/http_parser.cpp:1961-2089 | the chunked coding is undone under any segmentation within the limit: the joined callbacks are those of the chunks, the trailer and one end of message |
| Framing.OneFraming | src/common/http_parser.cpp:1817-1913 | the end of any header, with or without an upgrade, leads to a chunked body, a body of known length, a body up to the end of input or no body, each exactly under its condition; chunked with a length is refused; the call leaves exactly where another protocol follows at once |
| Framing.BodyIsConserved | src/common/http_parser.cpp:1918-1968 | however a body is cut, the bytes delivered and the bytes still awaited add up to the length, the message is complete exactly when none is awaited, and the last call leaves exactly if an upgrade was asked for |
| Accounts.TransitionBalances | src/common/http_parser.cpp:711-2095 | every byte in every state keeps the balance between the parser and the account of its callbacks: the length it holds is the one value told behind the Content-Length name, and in a body the bytes told, marked and awaited add up to it |
| Accounts.LengthIsHonoured | src/common/http_parser.cpp:1485-1608 | from the start of a message, after any calls: in a body of known length exactly one Content-Length has been told, and the bytes told since the header ended and those awaited add up to its decimal; a message that ends behind a slice of its body has told that many bytes |
| Framing.OpenBodyIsConserved | src/common/http_parser.cpp:1954-1959 | a body without a length is delivered as it comes, and only the end of input completes it |
| Pipelining.TransitionSame | src/common/http_parser.cpp:711-2095 | two parsers that differ only in fields a later byte overwrites before it reads them do the same with every byte |
| Pipelining.AfterOneMessage | src/common/http_parser.cpp:2132-2172 | behind a complete message that asked for no upgrade the parser waits for another one exactly if the version and the Connection flags keep the connection open, which is written out, and the message does not need the end of the input, and is dead otherwise |
| Pipelining.Pipelining | src/common/http_parser.cpp:458-462 | input behind any complete message is read as by a fresh parser with the count that the message has left, which is 0 unless it was chunked; it is not read if an upgrade was asked for, and makes no callback if the message was the last |
| Pipelining.AllMessages | src/common/http_parser.cpp:704-2096 | any number of messages in one call, chunked or not, each within what the one before has left of the limit, are reported as if each came alone |
| Pipelining.PlainAreKept | src/common/http_parser.cpp:704-2096 | messages that are not chunked and are each taken by a fresh parser leave the whole limit to the next one |
| Exchanges.EmptyLineIsRead | src/common/http_parser.cpp:1806-1916 | the empty line behind any header: what is told, whether the message ends there, whether the call leaves, and the next state, each by a condition on the parser that is written out |
| Exchanges.RestIsRead | src/common/http_parser.cpp:1256-2095 | any header lines and a body that they announce, of known length, chunked or none, are told in full, and the connection and the upgrade are what the lines say |
| Messages.MessageIsRead | src/common/http_parser.cpp:704-2096 | a whole request or reply as any sender may print it: its callbacks are written out; the call leaves exactly if it is for a tunnel or has both a Connection line that names upgrade and an Upgrade line; the next state is by version, Connection tokens and kind of body |
| Messages.DialogueIsTold | src/common/http_parser.cpp:704-2096 | any number of them in one call, behind each of which the connection stays open, are all taken and told one by one, such as requests of version 1.1 without a Connection line |
| Messages.NothingBehindTheLast | src/common/http_parser.cpp:713-721 | behind a message that asks for an upgrade nothing more is read; behind one that closes the connection only line ends pass, and nothing is told |
| Receivers.ReceiveRequest | src/common/http_request_parser.cpp:62-81 | such a request in one piece is good to the wrapper exactly if it asks for no other protocol, and is rebuilt with its URI, version, headers and the bytes of its body |
| Receivers.ReceiveReply | src/common/http_reply_parser.cpp:68-88 | the same for such a reply, with its status, headers and content |
| Pipelining.DeadForever | src/common/http_parser.cpp:713-721 | a dead connection makes no callback, whatever calls follow |
| Callbacks.CallTellsInOrder | src/common/http_request_parser.cpp:20-34 | no value is ever reported before a name, so `headers.back()` is there when it is used |
| RequestParsers.HttpRequestParser.constructor | src/common/http_request_parser.cpp:50-61 | a parser of requests with an empty request |
| RequestParsers.HttpRequestParser.OnHeaderValue | src/common/http_request_parser.cpp:28-34 | a value replaces that of the last header, which is there |
| RequestParsers.HttpRequestParser.DispatchAll | src/common/http_request_parser.cpp:7-49 | the callbacks of a call, in order, turn the request into what the fold of them says |
| RequestParsers.HttpRequestParser.Parse | src/common/http_request_parser.cpp:62-81 | the request is what the callbacks of the call make of it; the verdict is bad for an upgrade or a call that stops early, else good if the message is complete; the callbacks, the number of bytes and the upgrade are determined for every input, also on the header limit |
| RequestParsers.HttpRequestParser.MoveReq | src/common/http_request_parser.cpp:82-85 | the request is handed out; nothing is promised of what is left |
| RequestParsers.HeardBytes | src/common/http_request_parser.cpp:7-19 | the URI and the body are the bytes reported for them, however they were cut |
| RequestParsers.HeardReports | src/common/http_request_parser.cpp:20-34 | headers that are reported whole are appended as they are |
| ReplyParsers.HttpReplyParser.DispatchAll | src/common/http_reply_parser.cpp:15-53 | the callbacks of a call, in order, turn the reply into what the fold of them says |
| ReplyParsers.HttpReplyParser.Parse | src/common/http_reply_parser.cpp:68-88 | the same for replies |
| ReplyParsers.HeardBytes | src/common/http_reply_parser.cpp:21-27 | the content is the bytes reported for it |
| Packets.Request.ToString | src/common/http_packet.cpp:265-279 | the printed request: its line, Host, Accept, its own headers, Connection: close, Content-Length and the body |
| Packets.Reply.ToString | src/common/http_packet.cpp:96-127 | the printed reply: the status line, its headers, Content-Length and the content, joined from a list of parts |
| Packets.JoinTexts | src/common/http_packet.cpp:116-126 | the parts are joined in order, none left out |
| Packets.ParseUri | src/common/http_packet.cpp:280-318 | the URI behind its prefix is the host, perhaps a colon and the port, and from the first slash on the path; the port is 80 or 443 and the path a slash where there is none |
| Packets.SignedIsDecimal | src/common/http_packet.cpp:265-270 | a printed number is its decimal without zeros in front, behind a minus sign if it is negative |
| Packets.UrisAreSplit | src/common/http_packet.cpp:280-318 | a host without colon and slash, perhaps a colon and a port, and perhaps a path, behind http, https or no prefix, is split into these and nothing else, with port 80, or 443 for https, and path slash where there is none |
| Packets.ClientLinesAre | src/common/http_packet.cpp:24-31 | the status lines of 400, 401, 403 and 404, letter by letter |
| Packets.OtherLinesAre | src/common/http_packet.cpp:40-82 | every code that is not one of the fifteen others gives the line of 500 |
| Packets.SplitIsUnique | src/common/http_packet.cpp:280-318 | there is only one such split, so this determines the result |
| Replies.StatusIsRead | src/common/http_parser.cpp:762-956 | every printed status line is read by a parser that waits for a reply: it stores version 1.0 and the code, or 500 for a code that is not listed, and reports the reason |
| RoundTrips.LengthLineIsRead | src/common/http_parser.cpp:1373-1390 | the Content-Length line that the printers add is read and stored, or refused if there has been one before |
| RoundTrips.CloseIsRead | src/common/http_packet.cpp:275 | the Connection line of a printed request sets the close flag and no other |
| RoundTrips.LengthTailIsRead | src/common/http_packet.cpp:108-115 | the last header, the empty line and the content of a printed message are read to the end of the message |
| Requests.RequestRoundTrip | src/common/http_packet.cpp:265-279 | one call with a printed request takes all of it, reports exactly its URI, Host, Accept, its headers, Connection, Content-Length and its body, knows the method, and leaves the connection dead |
| Requests.ConnectIsLeft | src/common/http_parser.cpp:1876-1882 | a printed CONNECT request is left behind its header for an upgrade, with its body unread |
| Requests.Carry | src/common/http_request_parser.cpp:62-81 | printed and parsed through the objects: good with the same URI, version, body and the sent headers exactly if the method is not CONNECT, and the method is known in any case |
| Replies.ReplyRoundTrip | src/common/http_packet.cpp:96-127 | one call with a printed reply takes all of it and reports its status, headers, Content-Length and content; a code that is not listed arrives as 500 |
| Replies.Carry | src/common/http_reply_parser.cpp:68-88 | printed and parsed through the objects, with plain headers and Content-Length headers of its own: good, with the same status, or 500, the headers and the content, exactly if there is none of the latter |
| Replies.TwoLengthsAreRefused | src/common/http_packet.cpp:108-111 | a reply with any number of Content-Length headers of its own, wherever they stand, is refused in front of the second one that is printed |
| Replies.CarryStock | src/common/http_packet.cpp:252-263 | every stock reply, printed, is bad to the parser of replies |
| Deliveries.PiecesDoAll | src/common/http_parser.cpp:679-2120 | what one clean call takes can be fed in any pieces within the limit, with the same URL and body bytes, the same notifications and the same kinds of slices |
| Cuts.LinesOutsideCuts | src/common/http_request_parser.cpp:20-34 | for any parser and any accepted pieces: where no cut falls inside a name or a value, names and values are told as in one call; and in any case one more name is told for each cut inside a name |
| Cuts.HeadersSeeCuts | src/common/http_request_parser.cpp:20-34 | for any parser and any accepted pieces, the headers that are rebuilt are those of one call exactly if every cut falls outside names and values, or into a value that the next line of its header overwrites anyway |
| Cuts.HeadersArrive | src/common/http_request_parser.cpp:20-34 | headers with one line each are rebuilt as told exactly if no cut falls inside a name or a value |
| Deliveries.RequestInPieces | src/common/http_request_parser.cpp:7-34 | a printed request in any pieces arrives with its URI, its version, its body and its method, and is complete; all of it arrives exactly if no cut falls inside a name or a value |
| Deliveries.ReplyInPieces | src/common/http_reply_parser.cpp:15-44 | a printed reply in any pieces arrives with its status and its content, and is complete; all of it arrives exactly if no cut falls inside a name or a value |
| Deliveries.CutNameIsTwoHeaders | src/common/http_request_parser.cpp:20-27 | whatever the name, wherever in the header and wherever the cut, a header name in two calls becomes two headers |
| Urls.HttpParserUrl.constructor | src/common/http_parser.cpp:2374-2377 | no field is set |
| Urls.HttpParserUrl.ParseHost | src/common/http_parser.cpp:2293-2372 | the loop over the authority leaves the fields of its specification, and fails exactly if the authority may not end where it does |
| Urls.HttpParserUrl.ParseUrl | src/common/http_parser.cpp:2379-2481 | the loop over the URL, the authority and the checks leave the fields and the port of the specification, and fail exactly if it does |
| Urls.ScanIsScanned | src/common/http_parser.cpp:2392-2448 | at every byte of the first pass the fields are in order, next to each other but for their delimiters, and end at this byte |
| Urls.HostIsHosted | src/common/http_parser.cpp:2305-2354 | at every byte of the second pass userinfo, host and port lie behind each other with '@', brackets and ':' between them |
| Urls.SplitLaysOut | src/common/http_parser.cpp:2379-2481 | an accepted URL is schema, userinfo, host, port, path, query and fragment, in this order, with exactly their delimiters in between |
| Urls.SplitIsPartition | src/common/http_parser.cpp:2379-2481 | the fields are not empty, within the buffer, disjoint and ordered; every byte is in one of them or a delimiter; a CONNECT target is a host and a port; the port is the number its digits say, below 65536 |
| UrlReaders.SplittableIsUrl | src/common/http_parser.cpp:1061-1132 | a URL that the splitter accepts may stand in a request line |
| UrlReaders.SplittableIsRead | src/common/http_parser.cpp:1061-1132 | and there it is taken and reported whole |
| UrlReaders.NotAllUrlsSplit | src/common/http_parser.cpp:2225-2234 | not the other way round: the request line does not look at the parts of an authority |
| Authorities.AcceptsAuthorities | src/common/http_parser.cpp:2225-2291 | the automaton over an authority accepts exactly a userinfo and an at sign or none, a name or an address in brackets with or without a zone, and a colon and digits or none |
| Authorities.V6CharsAre | src/common/http_parser.cpp:2248-2256 | an address in brackets holds hexadecimal digits, colons and dots |
| Authorities.ZoneCharsAre | src/common/http_parser.cpp:2262-2270 | and its zone letters, digits and five marks |
| UrlReaders.SplitsExactly | src/common/http_parser.cpp:2379-2481 | a URL of the request line can be split exactly if it has no schema, or its authority is such a text and its port is below 65536 |
| UrlReaders.ReadersAgree | src/common/http_packet.cpp:280-318 | for an http or https URL with a plain authority that ends at a slash or at the end, `parse_uri` gives the same host, the same port or the default, and the rest from the path on |
| UrlReaders.SplitTwice | src/common/http_packet.cpp:280-318 | both splitters run on one URL give the same result whenever they can be compared |
| Sessions.StartIsSafe | src/http_server/http_server_session.cpp:20-24 | a started session is safe, watched and reading |
| Sessions.NextIsSafe | src/http_server/http_server_session.cpp:35-157 | every event keeps: at most one wait pending, read and write never both in flight, no early return for a wait found, at most one reply written, no read once the request is moved out; and a registered session has a wait pending or expired, unless a completion is aborted |
| Sessions.RunIsSafe | src/http_server/http_server_session.cpp:35-157 | the same after every interleaving of completions, expiries, replies and stops |
| Sessions.AbortStrands | src/http_server/http_server_session.cpp:76-79 | an event loses sight of a watched session exactly if it is an aborted completion while the session is registered and no wait has expired; then only the end of the server can still happen to it |
| Sessions.RunStrands | src/http_server/http_server_session.cpp:76-79 | a run that loses sight of a session has met an aborted completion |
| Services.ReadLeads | src/http_server/http_server_session.cpp:53-80 | what each outcome of a read does to each field of a safe session: a good request is moved and asked for and its reply, if it is given at once, is sent; a bad one is answered by the page of error 400 and stops the session; an unfinished one is read on; failure stops, abortion does neither |
| Services.EventLeads | src/http_server/http_server_session.cpp:83-157 | the same for every other event |
| Services.BadIsPrinted | src/common/http_packet.cpp:164-171 | the page of error 400 as it is sent, letter by letter, with its two lengths |
| Services.SentHasACause | src/http_server/http_server_session.cpp:35-157 | over every run from the start: the request has been moved exactly behind a good verdict, the page of error 400 is what is sent behind a bad one, any other text sent is the reply that was given to a good request, and that reply has been sent unless a wait ran |
| Sessions.UnaskedReply | src/http_server/http_server_session.cpp:118-128 | a reply that was not asked for keeps the session safe exactly if it is dropped, or nothing is under way and nothing was written |
| Sessions.HttpServerSession.DoRead | src/http_server/http_server_session.cpp:35-81 | a read and a wait are begun, or the session is stopped if a wait was found |
| Sessions.HttpServerSession.DoWrite | src/http_server/http_server_session.cpp:83-116 | the reply is printed, and its write and a wait are begun |
| Sessions.HttpServerSession.OnReply | src/http_server/http_server_session.cpp:118-128 | a stopped session drops the reply, any other writes it, asked for or not |
| Sessions.HttpServerSession.HandleRequest | src/http_server/http_server_session.cpp:135-157 | the request is moved out, a wait is begun, and the handler may answer at once or later |
| Sessions.HttpServerSession.OnRead | src/http_server/http_server_session.cpp:53-80 | the wait is cancelled, and the session becomes what `Services.ReadLeads` says of each outcome |
| Sessions.HttpServerSession.Dispatch | src/http_server/http_server_session.cpp:35-157 | the object does what the event machine does, which `Services` writes out field by field, and keeps its invariant; no other session leaves or enters the manager |
| Sessions.HttpSessionManager.Start | include/http_session_manager.h:27-34 | the session is registered, if it was not, and reading; no other one is touched |
| Sessions.HttpSessionManager.Stop | include/http_session_manager.h:37-45 | the session is registered no more, and its socket shut down |
| Sessions.HttpSessionManager.StopAll | include/http_session_manager.h:48-60 | no session is registered any more, and all that were have been stopped, otherwise unchanged |

## Left out

- HttpParsers.HttpParser.Execute: the callbacks are returned as a list, in their order, and run by the caller afterwards, so a callback that changes or pauses the parser in the middle of a call is not modelled; none in the repository does. The states without an inner loop are executed through `Transitions.Transition`, so a jump back to `reexecute` is one step there. The local copy of `header_state` in the value loop is the field itself.
- Callbacks that fail, `http_parser_pause`, `F_SKIPBODY` and the non-strict and lenient builds: nothing in the repository uses them.
- The fields of a parser that has refused a byte, other than the error: nothing reads them.
- The version of a request and the status of a reply hold no value in the source until a message sets them; here they are 0.
- RequestParsers.HttpRequestParser.MoveReq: what a moved-from request holds is left unspecified, as the language leaves it.
- Requests.RequestRoundTrip: headers with one of the recognised names are excluded, as are values that begin with a space or tab, since the parser drops those; values with control bytes are excluded too, although one call would pass over some of them.
- Replies.ReplyRoundTrip: the same names are excluded; of these, well-formed Content-Length headers of the reply's own are treated by Replies.Carry.
- Packets.Reply.AddHeader: gives a new reply instead of changing the old one.
- Packets.StockReply: the pages are a parameter, except the one that the session sends.
- Urls.HttpParserUrl.ParseUrl: the fields after a failure are not specified; the 16 bits of offsets and lengths are a precondition.
- Sessions.RunIsSafe: handlers run one at a time, as on one thread of the executor; the verdict of the request parser, what the request handler does, and the results of the socket are the environment's choice. Connection setup, the mutex of the manager, logging and the lifetime of the objects are left out.
- `http_client`, `https_client` and `https_server_session`: thin sequences over asio, and a near copy of the plain session.
- `http_errno_name`, `http_errno_description`, `http_method_str` and `http_parser_version`: table lookups.
