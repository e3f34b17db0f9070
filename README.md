# lsof listening-port parser, modelled in Dafny

The package `lsof` runs `lsof -i -n -P -sTCP:LISTEN` and turns its text output into
an ordered list of `Process` records: PID, command, user ID and listening port.
This project models that parser, `lsof/lsof.go`, and proves properties of the model.

- `wrappers.dfy`, module `Wrappers`: the `Option` datatype. It stands for Go's `error` results and for strconv failures.
- `gotext.dfy`, module `GoText`: the parts of Go's standard library the parser relies on.
  - `strings.Split(s, "\n")`, `strings.TrimSpace(line) == ""` and `strings.HasPrefix(line, "p")`.
  - `regexp "\s+"` Split, which keeps the empty leading and trailing pieces.
  - `regexp "\d+"` Find.
  - `strconv.Atoi` on a run of digits, for a 64-bit `int`.
- `lsof.dfy`, module `Lsof`: the file itself.
  - `fileTypeFromString`.
  - `FileDescriptor.fillField`, as a class method.
  - `Process.fillField`, as a method of `ProcessRef`, a class modelling the `*Process` receiver.
  - `parseProcessLines` and `parseAppendProcessLines`.
  - `parse`, as an imperative loop.

Each method is proved against a specification function:
- `ParseProcessLines` against `FoldLines`.
- `Parse` against `ParseResult`. `ParseResult` is defined independently of the loop: drop the header, keep the non-blank lines, cut them into `Chunks` at the `p` lines, and make one record per chunk.

Lemmas then state what those functions promise:
- chunks partition the lines;
- the last line of a chunk wins;
- the header is dropped exactly when the text has a newline;
- concrete listings.

Where the code and the repository's description of the parser differ, the model follows the code:
- The code has no client-side `LISTEN` filter: every non-blank line after the header is used.
- A line with fewer than nine whitespace-separated fields does not produce a record with no port. Go indexes `values[8]` unchecked and panics. The model makes "at least nine fields" a precondition (`Fillable`, `WellFormed`).
- The tagged (`-F`) verbose format cannot be parsed. A line such as `p123` has one field, so `Process.fillField` would panic on it. The model does not prove the verbose-format grouping property.
- Chunking by a leading `p` is applied to the compact listing that `Run` requests. That is the finding below.
- A record's Command is not always non-empty. A data line that starts with white space gets Command "": Split keeps the empty piece before the leading run, and that piece is field 0 (`LeadingSpaceCommand`). PID and UserID are always non-empty (`ParseIdentity`).
- An empty-field error never reaches the caller. Blank lines are skipped before chunking, so no chunk holds an empty line. `Parse` proves `err == None`.

## Model

| member | source | states |
|---|---|---|
| GoText.IsRegexpSpace | lsof/lsof.go:16 | `\s` in Go's regexp syntax: space, tab, newline, form feed, carriage return (no vertical tab) |
| GoText.IsDigit | lsof/lsof.go:17 | `\d` in Go's regexp syntax: the ASCII digits |
| GoText.IsUnicodeSpace | lsof/lsof.go:137 | unicode.IsSpace, the characters strings.TrimSpace removes |
| GoText.IsBlank | lsof/lsof.go:137 | `strings.TrimSpace(line) == ""`: every character of the line is white space |
| GoText.StartsWithP | lsof/lsof.go:142 | `strings.HasPrefix(line, "p")` |
| GoText.SplitLines | lsof/lsof.go:128 | strings.Split on newline yields at least one piece, and no piece holds a newline |
| GoText.JoinSplitLines | lsof/lsof.go:128 | joining the pieces with newlines gives back the original text (no character lost) |
| GoText.SplitLinesCount | lsof/lsof.go:128 | there is exactly one more piece than the text has newlines |
| GoText.SplitLinesMany | lsof/lsof.go:131-134 | there is more than one piece (so the header is dropped) exactly when the text holds a newline |
| GoText.SplitLinesAppend | lsof/lsof.go:128 | splitting `a + "\n" + b`, a without newline, gives a followed by the pieces of b |
| GoText.SplitLinesSingle | lsof/lsof.go:128 | a text without newline splits into itself alone |
| GoText.Fields | lsof/lsof.go:72 | `\s+` Split yields at least one piece; no piece holds `\s`; interior pieces are non-empty; a leading space gives an empty first piece, a leading non-space a non-empty one |
| GoText.Gaps | lsof/lsof.go:72 | the separators Split drops: one fewer than the pieces, each a non-empty run of `\s` |
| GoText.FieldsRebuild | lsof/lsof.go:72 | interleaving the pieces with the separators rebuilds the line exactly |
| GoText.FieldsWord | lsof/lsof.go:72 | a word without white space splits into itself alone |
| GoText.FieldsWordSpace | lsof/lsof.go:72 | a word followed by one space and a text not starting with a space gives that word then the text's pieces |
| GoText.FieldsJoinSpaced | lsof/lsof.go:72 | words without white space, non-empty inside, joined with single spaces split back into the same words |
| GoText.LeadingDigits | lsof/lsof.go:73 | the longest all-digit prefix: a prefix, all digits, followed by a non-digit or the end |
| GoText.FindDigits | lsof/lsof.go:73 | `\d+` Find returns a string of ASCII digits only |
| GoText.FindDigitsFinds | lsof/lsof.go:73 | Find returns "" exactly when the field has no digit, and otherwise the first maximal digit run |
| GoText.FirstDigitRunIsFound | lsof/lsof.go:73 | the first maximal digit run is unique: whatever run satisfies that description is what Find returns |
| GoText.DecimalRoundTrip | lsof/lsof.go:74 | reading back the decimal notation of n gives n |
| GoText.Atoi | lsof/lsof.go:74 | Atoi succeeds if and only if the digit string is non-empty and its value is at most MaxInt64, and then returns that value |
| Lsof.FileTypeFromString | lsof/lsof.go:57-66 | "DIR" gives FileTypeDir and "REG" FileTypeFile, each if and only if; every other string gives FileTypeUnknown |
| Lsof.FileTypeRoundTrip | lsof/lsof.go:32-36 | each FileType constant is recovered from its own string value |
| Lsof.FileTypeFromStringValue | lsof/lsof.go:57-66 | a string maps to the type it is the value of, or to the unknown type |
| Lsof.FileDescriptor.constructor | lsof/lsof.go:38-43 | the zero FileDescriptor: empty FD and Name, unknown Type |
| Lsof.FileDescriptor.FillField | lsof/lsof.go:84-100 | tag `t` sets Type from the rest of the line, `f` sets FD, `n` sets Name; other tags change nothing; always nil |
| Lsof.Fillable | lsof/lsof.go:69-73 | a line Process.fillField takes without panicking: the empty line, or one with at least nine fields for the unchecked `values[8]` |
| Lsof.PortOf | lsof/lsof.go:73-74 | the port field 8 names is at most MaxInt64, and a field without a digit run names none |
| Lsof.PortOfOverflow | lsof/lsof.go:73-77 | a first digit run too large for an int makes Atoi fail, so field 8 names no port and PortNumber is left as it was |
| Lsof.Filled | lsof/lsof.go:68-82 | the record fillField leaves: unchanged for ""; otherwise PID and UserID non-empty, with no white space in PID, Command and UserID; PortNumber kept when field 8 names no port |
| Lsof.LeadingSpaceCommand | lsof/lsof.go:72-79 | a line starting with `\s` fills Command with "", the empty piece Split keeps before the leading run |
| Lsof.ProcessRef.constructor | lsof/lsof.go:103 | the variable starts as the zero Process |
| Lsof.ProcessRef.FillField | lsof/lsof.go:68-82 | the empty line is an error and changes nothing; otherwise PID, Command, UserID become fields 1, 0, 2 and the port becomes field 8's digit run when Atoi accepts it, else stays |
| Lsof.PortOfDigitRun | lsof/lsof.go:73-77 | field 8's port is the value of its first maximal digit run when that fits in an int |
| Lsof.PortOfNoDigits | lsof/lsof.go:73-77 | a field 8 without digits names no port, so PortNumber is left as it was |
| Lsof.ParseProcessLines | lsof/lsof.go:102-111 | fills a zero Process with each line in turn and stops at the first error; the result is the fold of the lines |
| Lsof.FoldLines | lsof/lsof.go:102-111 | the fold of a chunk: any error is the empty-field error; with no error and at least one line, PID and UserID are non-empty |
| Lsof.FoldLinesError | lsof/lsof.go:104-109 | parseProcessLines reports an error exactly when the chunk holds an empty line |
| Lsof.FoldLinesSnoc | lsof/lsof.go:104-110 | one more non-empty line fills that line into the record last |
| Lsof.FoldLinesLastWins | lsof/lsof.go:102-111 | after a chunk with no empty line: PID, Command and UserID are the last line's; PortNumber is the last port named, or the start value; no error |
| Lsof.ProcessOfChunk | lsof/lsof.go:102-111 | a chunk's record: identity from its last line, port from the last line naming one, or 0 |
| Lsof.ParseAppendProcessLines | lsof/lsof.go:113-125 | an empty chunk changes nothing; a chunk with an empty line returns the inputs and the error; otherwise one record is appended and the chunk is emptied |
| Lsof.Chunks | lsof/lsof.go:136-149 | there are no chunks exactly when there are no lines, and no chunk is empty |
| Lsof.ChunksSnoc | lsof/lsof.go:142-148 | a new line opens a new chunk if it is the first line or starts with `p`, and joins the last chunk otherwise |
| Lsof.ChunksFlatten | lsof/lsof.go:136-149 | the chunks concatenated give back the lines in order |
| Lsof.ChunksStartWithP | lsof/lsof.go:142 | every chunk after the first starts with a `p` line |
| Lsof.ChunksContinue | lsof/lsof.go:142-148 | no line of a chunk other than its first starts with `p` |
| Lsof.ChunksMembers | lsof/lsof.go:136-149 | every line of every chunk is one of the lines chunked |
| Lsof.ChunksCount | lsof/lsof.go:142-148 | one chunk for the first line plus one for every later `p` line |
| Lsof.DataLines | lsof/lsof.go:128-134 | the lines after the header: at least one, none holding a newline |
| Lsof.NonBlank | lsof/lsof.go:137-139 | every kept line is one of the lines and is not white space only |
| Lsof.NonBlankMembers | lsof/lsof.go:137-139 | a line is kept if and only if it is one of the lines and is not white space only |
| Lsof.NonBlankAppend | lsof/lsof.go:136-139 | the skip goes line by line: the kept lines of a concatenation are those of each part, in order |
| Lsof.OneBlank | lsof/lsof.go:137-139 | a white-space-only line is dropped |
| Lsof.OneNonBlank | lsof/lsof.go:137-139 | any other line is kept (with OneBlank and NonBlankAppend this fixes the kept lines: order and multiplicity) |
| Lsof.WellFormed | lsof/lsof.go:72-73 | the texts parse does not panic on: every non-blank data line has at least nine fields |
| Lsof.ParseResult | lsof/lsof.go:127-155 | what parse returns: one record per chunk of the kept lines, and no record exactly when no line is kept |
| Lsof.KeptNoEmpty | lsof/lsof.go:137-139 | no empty line survives the TrimSpace skip |
| Lsof.Processes | lsof/lsof.go:143-150 | one record per chunk |
| Lsof.ProcessesAt | lsof/lsof.go:143-150 | record k is the record of chunk k |
| Lsof.LoopState | lsof/lsof.go:136-149 | the loop's open chunk can always be filled and never holds an empty line |
| Lsof.LoopStateStep | lsof/lsof.go:136-149 | a data line is skipped if blank, closes the open chunk if it starts with `p` and the chunk is non-empty, and otherwise joins the chunk |
| Lsof.LoopStateAssembled | lsof/lsof.go:136-149 | after any prefix of the data lines, the loop holds the records of all chunks of the kept lines but the last, and the last chunk open |
| Lsof.Parse | lsof/lsof.go:127-155 | for a text no line of which makes Go panic, parse returns no error and exactly ParseResult: one record per chunk of the non-blank data lines |
| Lsof.HeaderDropped | lsof/lsof.go:128-134 | with a newline in the text, the first line is dropped; without one, the whole text is the one data line |
| Lsof.ParseCount | lsof/lsof.go:127-155 | parse returns one record for the first kept line and one for every later kept line starting with `p` |
| Lsof.ParseRecord | lsof/lsof.go:127-155 | record k comes from chunk k alone: identity from its last line, port from its last line naming one, or 0 |
| Lsof.ParseIdentity | lsof/lsof.go:72-80 | every record parse returns has a non-empty PID and UserID (fields 1 and 2 of a line with at least nine fields) |
| Lsof.SingleLine | lsof/lsof.go:128-134 | a text without newline is not treated as a header: it gives the one record filled from it |
| Lsof.OneDataLine | lsof/lsof.go:128-134 | a header and one newline-terminated line leave that line and a trailing empty line as data |
| Lsof.HeaderAndLine | lsof/lsof.go:127-155 | a header and one newline-terminated data line give exactly that line's record |
| Lsof.SshdLineFields | lsof/lsof.go:72 | the sshd listening line splits into its ten columns |
| Lsof.SshdRecord | lsof/lsof.go:68-82 | the sshd columns fill the record PID "100", command "sshd", user "root", port 22 |
| Lsof.ListeningSocket | lsof/lsof.go:127-155 | any header followed by the sshd listening line gives exactly the record for sshd on port 22 |
| Lsof.TwoLines | lsof/lsof.go:128-139 | a header and two listening lines are both kept |
| Lsof.MergedListeners | lsof/lsof.go:142-148 | as written: two listening lines, the second not starting with `p`, give ONE record, the second line filled over the first |
| Lsof.ParsePerLine | lsof/lsof.go:136-149 | corrected parse: one record per kept line, each with non-empty PID and UserID |
| Lsof.PerLineRecords | lsof/lsof.go:136-149 | corrected parse: one record per non-blank data line, each from its own line |
| Lsof.SeparateListeners | lsof/lsof.go:142-148 | corrected parse: the two listening lines give two separate records |

## Left out

- `Run` (lsof/lsof.go:157-168) is left out. It executes the external `lsof` command and wraps failures in `ExecError`. That is process I/O, so the model starts from the text `Run` would pass to `parse`.
- `ExecError.Error` (lsof/lsof.go:53-55) is left out. It is message formatting for the I/O failure above.
- `main.go` is not part of this model. It only renders the records as a table.
- Go's regexp engine is not modelled. The two patterns used are stated directly: `\s+` Split as `Fields` and `\d+` Find as `FindDigits`.
- Lsof.ProcessRef.FillField and Lsof.Parse: lines with fewer than nine fields make Go panic (an unchecked `values[8]`). The model turns this into preconditions (`Fillable`, `WellFormed`) rather than modelling the panic.
- Lsof.FileDescriptor.FillField: Go panics on the empty string (`s[0]`). The model requires a non-empty line.
- Lsof.FileDescriptor.FillField: Go splits off the first byte. The model splits off the first character. The two agree whenever the tag is ASCII, which includes every tag the method handles.
- Lsof.Parse: the `return nil, err` paths (lsof/lsof.go:144-146 and 151-153) are shown unreachable rather than modelled. Blank lines never reach a chunk, so `err` is always nil.
- GoText.Atoi and Lsof.Process: `int` is taken to be 64 bits. Atoi applies only to digit runs, so PortNumber is a `nat`. The model does not cover a 32-bit platform.
- Strings are sequences of Unicode scalar values. Invalid UTF-8 in lsof's output is not modelled.
- Lsof.ListeningSocket: the listening line is written with single spaces. lsof pads its columns with several spaces. `Fields` treats a whole run of white space as one separator (`Gaps`, `FieldsRebuild`), so the scenario with single spaces is a simplification.
- Lsof.FileDescriptor: it is modelled, but `parse` never uses it, which is also true of the source.

## Findings

| source | as written | input that shows it | evidently intended | confidence | as-written member | corrected member |
|---|---|---|---|---|---|---|
| lsof/lsof.go:142-148 | A new record starts only at a line beginning with `p`; every other line is folded into the open record. | A header, then `sshd 100 root 3u IPv4 12345 0t0 TCP *:22 (LISTEN)`, then `nginx 200 root 6u IPv4 12346 0t0 TCP *:80 (LISTEN)` gives one record, for nginx, and loses sshd. A listening process whose name starts with `p` (postgres) starts a new record only by accident. | `lsof -i -n -P -sTCP:LISTEN` prints one socket per line, so each non-blank data line should be its own record. | high for the merge, which follows from the code; not executed | Lsof.MergedListeners | Lsof.SeparateListeners |
