/**
  The parser of lsof/lsof.go: it turns the text that `lsof -i -n -P -sTCP:LISTEN`
  prints into an ordered list of Process records.

  The text is split into lines; the first line (the column header) is dropped
  when there is more than one line; white-space-only lines are skipped; the
  remaining lines are grouped into chunks, a new chunk starting at every line
  that begins with `p`; and each chunk is folded, line by line, into one
  Process by Process.fillField.
*/
module Lsof {
  import opened Wrappers
  import opened GoText

  // ---------------------------------------------------------------------------
  // File types

  /** The FileType constants. */
  datatype FileType = FileTypeUnknown | FileTypeDir | FileTypeFile {
    /** The Go string each constant stands for. */
    function Value(): string {
      match this
      case FileTypeUnknown => ""
      case FileTypeDir => "DIR"
      case FileTypeFile => "REG"
    }
  }

  /** fileTypeFromString: "DIR" and "REG" are recognised, everything else is unknown; it never fails. */
  function FileTypeFromString(s: string): (t: FileType)
    ensures t == FileTypeDir <==> s == "DIR"
    ensures t == FileTypeFile <==> s == "REG"
    ensures t == FileTypeUnknown <==> s != "DIR" && s != "REG"
  {
    match s
    case "DIR" => FileTypeDir
    case "REG" => FileTypeFile
    case _ => FileTypeUnknown
  }

  /** Every constant is recovered from its own string value. */
  lemma FileTypeRoundTrip(t: FileType)
    ensures FileTypeFromString(t.Value()) == t
  {
  }

  /** A string is either the value of the type it maps to, or maps to the unknown type. */
  lemma FileTypeFromStringValue(s: string)
    ensures FileTypeFromString(s).Value() == s || FileTypeFromString(s) == FileTypeUnknown
  {
  }

  // ---------------------------------------------------------------------------
  // File descriptors

  /** The error values fillField can return: only `errors.New("empty field")`. */
  datatype Error = EmptyField

  /** FileDescriptor: a file in use by a process; fillField sets its fields one tagged line at a time. */
  class FileDescriptor {
    var FD: string
    var Type: FileType
    var Name: string

    /** The zero value FileDescriptor{}. */
    constructor ()
      ensures FD == "" && Type == FileTypeUnknown && Name == ""
    {
      FD, Type, Name := "", FileTypeUnknown, "";
    }

    /**
      fillField: the first character of s names the field (`t` type, `f` descriptor,
      `n` name) and the rest of s is its value; any other tag is skipped. Go indexes
      s[0] unchecked, so s must not be empty. It always returns nil.
    */
    method FillField(s: string) returns (err: Option<Error>)
      requires s != ""
      modifies this
      ensures err == None
      ensures Type == (if s[0] == 't' then FileTypeFromString(s[1..]) else old(Type))
      ensures FD == (if s[0] == 'f' then s[1..] else old(FD))
      ensures Name == (if s[0] == 'n' then s[1..] else old(Name))
    {
      var key := s[0];
      var value := s[1..];
      match key {
        case 't' => Type := FileTypeFromString(value);
        case 'f' => FD := value;
        case 'n' => Name := value;
        case _ =>
      }
      err := None;
    }
  }

  // ---------------------------------------------------------------------------
  // Processes

  /** Process: a process using an open file, with its identity kept as text. */
  datatype Process = Process(PID: string, Command: string, UserID: string, PortNumber: nat)

  /** The zero value Process{}. */
  const ZeroProcess := Process("", "", "", 0)

  /**
    A line Process.fillField can take: the empty line (an error), or one with
    at least nine fields, since Go reads values[8] without a bounds check.
  */
  predicate Fillable(s: string) {
    s == "" || |Fields(s)| >= 9
  }

  predicate AllFillable(lines: seq<string>) {
    forall k | 0 <= k < |lines| :: Fillable(lines[k])
  }

  /** strconv.Atoi(string(numbersReg.Find(field))): the port a field names, if any. */
  function PortOf(field: string): (port: Option<nat>)
    ensures port.Some? ==> port.value <= MaxInt
    ensures FindDigits(field) == "" ==> port == None
  {
    Atoi(FindDigits(field))
  }

  /** The port a field names is the value of its first maximal digit run, when that value fits in an int. */
  lemma {:induction false} PortOfDigitRun(field: string, i: nat, d: string)
    requires IsFirstDigitRun(field, i, d) && DecimalValue(d) <= MaxInt
    ensures PortOf(field) == Some(DecimalValue(d))
  {
    FirstDigitRunIsFound(field, i, d);
  }

  /** A field whose first digit run is too large for an int names no port: Atoi fails and PortNumber stays. */
  lemma {:induction false} PortOfOverflow(field: string, i: nat, d: string)
    requires IsFirstDigitRun(field, i, d) && DecimalValue(d) > MaxInt
    ensures PortOf(field) == None
  {
    FirstDigitRunIsFound(field, i, d);
  }

  /** A field without a digit names no port. */
  lemma {:induction false} PortOfNoDigits(field: string)
    requires NoDigits(field)
    ensures PortOf(field) == None
  {
    FindDigitsFinds(field);
  }

  /**
    The record after `p.fillField(s)`: unchanged for the empty line; otherwise
    Command, PID and UserID are fields 0, 1 and 2, and PortNumber becomes the
    port field 8 names, or stays as it was when it names none.
  */
  function Filled(p: Process, s: string): (q: Process)
    requires Fillable(s)
    ensures s == "" ==> q == p
    ensures s != "" ==> q.PID != "" && q.UserID != "" && NoSpace(q.PID) && NoSpace(q.Command) && NoSpace(q.UserID)
    ensures s != "" && PortOf(Fields(s)[8]) == None ==> q.PortNumber == p.PortNumber
  {
    if s == "" then p
    else
      var values := Fields(s);
      var port := PortOf(values[8]);
      Process(values[1], values[0], values[2], if port.Some? then port.value else p.PortNumber)
  }

  /** The receiver of Process.fillField: a Process variable whose fields the method assigns. */
  class ProcessRef {
    var PID: string
    var Command: string
    var UserID: string
    var PortNumber: nat

    /** The Process value held. */
    function Value(): Process
      reads this
    {
      Process(PID, Command, UserID, PortNumber)
    }

    /** A variable holding the zero Process. */
    constructor ()
      ensures Value() == ZeroProcess
    {
      PID, Command, UserID, PortNumber := "", "", "", 0;
    }

    /** Process.fillField: an error for the empty line, which leaves the record alone. */
    method FillField(s: string) returns (err: Option<Error>)
      requires Fillable(s)
      modifies this
      ensures err == (if s == "" then Some(EmptyField) else None)
      ensures Value() == Filled(old(Value()), s)
    {
      if s == "" {
        return Some(EmptyField);
      }
      var values := Fields(s);
      var portNumberText := FindDigits(values[8]);
      var portNumber := Atoi(portNumberText);
      if portNumber.Some? {
        PortNumber := portNumber.value;
      }
      PID := values[1];
      Command := values[0];
      UserID := values[2];
      return None;
    }
  }

  // ---------------------------------------------------------------------------
  // parseProcessLines: folding one chunk

  /** Filling the lines into p in order, stopping at the first empty line with its error. */
  function FoldLines(p: Process, lines: seq<string>): (r: (Process, Option<Error>))
    requires AllFillable(lines)
    ensures r.1.None? && lines != [] ==> r.0.PID != "" && r.0.UserID != ""
    ensures r.1.Some? ==> r.1 == Some(EmptyField)
    decreases |lines|
  {
    if lines == [] then (p, None)
    else if lines[0] == "" then (p, Some(EmptyField))
    else FoldLines(Filled(p, lines[0]), lines[1..])
  }

  /** The record one chunk of lines becomes. */
  function ProcessOf(chunk: seq<string>): Process
    requires AllFillable(chunk)
  {
    FoldLines(ZeroProcess, chunk).0
  }

  /** parseProcessLines: fill a zero Process with every line of the chunk, returning at the first error. */
  method ParseProcessLines(lines: seq<string>) returns (p: Process, err: Option<Error>)
    requires AllFillable(lines)
    ensures (p, err) == FoldLines(ZeroProcess, lines)
  {
    var acc := new ProcessRef();
    for i := 0 to |lines|
      invariant FoldLines(acc.Value(), lines[i..]) == FoldLines(ZeroProcess, lines)
    {
      assert lines[i..][1..] == lines[i + 1..];
      err := acc.FillField(lines[i]);
      if err.Some? {
        return acc.Value(), err;
      }
    }
    return acc.Value(), None;
  }

  /** The fold reports an error exactly when some line is empty. */
  lemma {:induction false} FoldLinesError(p: Process, lines: seq<string>)
    requires AllFillable(lines)
    ensures FoldLines(p, lines).1 == (if "" in lines then Some(EmptyField) else None)
    decreases |lines|
  {
    if lines != [] && lines[0] != "" {
      assert lines == [lines[0]] + lines[1..];
      FoldLinesError(Filled(p, lines[0]), lines[1..]);
    }
  }

  /** Adding a non-empty line at the end of an error-free chunk fills that line into the record last. */
  lemma {:induction false} FoldLinesSnoc(p: Process, lines: seq<string>, line: string)
    requires AllFillable(lines) && Fillable(line) && "" !in lines && line != ""
    ensures FoldLines(p, lines + [line]) == (Filled(FoldLines(p, lines).0, line), None)
    decreases |lines|
  {
    if lines == [] {
      assert [line][1..] == [];
    } else {
      assert (lines + [line])[1..] == lines[1..] + [line];
      FoldLinesSnoc(Filled(p, lines[0]), lines[1..], line);
    }
  }

  /**
    The port of the last line whose field 8 names one, searching from the end;
    init when no line does.
  */
  function LastPort(init: nat, lines: seq<string>): nat
    requires forall k | 0 <= k < |lines| :: |Fields(lines[k])| >= 9
    decreases |lines|
  {
    if lines == [] then init
    else
      var port := PortOf(Fields(lines[|lines| - 1])[8]);
      if port.Some? then port.value else LastPort(init, lines[..|lines| - 1])
  }

  /**
    Last line wins: after a non-empty chunk with no empty line, PID, Command and
    UserID are those of the last line, and PortNumber is that of the last line
    naming a port (the starting value when none does); no error is reported.
  */
  lemma {:induction false} FoldLinesLastWins(p: Process, lines: seq<string>)
    requires lines != [] && AllFillable(lines) && "" !in lines
    ensures var last := Fields(lines[|lines| - 1]);
      FoldLines(p, lines) == (Process(last[1], last[0], last[2], LastPort(p.PortNumber, lines)), None)
    decreases |lines|
  {
    var n := |lines|;
    var front := lines[..n - 1];
    assert lines == front + [lines[n - 1]];
    assert AllFillable(front);
    FoldLinesSnoc(p, front, lines[n - 1]);
    if front != [] {
      FoldLinesLastWins(p, front);
    }
  }

  /** The record of a chunk: identity from its last line, port from the last line naming one, or 0. */
  lemma ProcessOfChunk(chunk: seq<string>)
    requires chunk != [] && AllFillable(chunk) && "" !in chunk
    ensures var last := Fields(chunk[|chunk| - 1]);
      ProcessOf(chunk) == Process(last[1], last[0], last[2], LastPort(0, chunk))
  {
    FoldLinesLastWins(ZeroProcess, chunk);
  }

  // ---------------------------------------------------------------------------
  // parseAppendProcessLines

  /**
    parseAppendProcessLines: an empty chunk changes nothing; a chunk with an
    empty line gives the error and changes nothing; any other chunk appends its
    one record after the existing ones and is replaced by an empty chunk.
  */
  method ParseAppendProcessLines(processes: seq<Process>, linesChunk: seq<string>)
      returns (processesAfter: seq<Process>, linesChunkAfter: seq<string>, err: Option<Error>)
    requires AllFillable(linesChunk)
    ensures linesChunk == [] ==> processesAfter == processes && linesChunkAfter == linesChunk && err == None
    ensures linesChunk != [] && "" in linesChunk ==>
      processesAfter == processes && linesChunkAfter == linesChunk && err == Some(EmptyField)
    ensures linesChunk != [] && "" !in linesChunk ==>
      processesAfter == processes + [ProcessOf(linesChunk)] && linesChunkAfter == [] && err == None
  {
    if |linesChunk| == 0 {
      return processes, linesChunk, None;
    }
    var process;
    process, err := ParseProcessLines(linesChunk);
    FoldLinesError(ZeroProcess, linesChunk);
    if err.Some? {
      return processes, linesChunk, err;
    }
    processesAfter := processes + [process];
    linesChunkAfter := [];
    return processesAfter, linesChunkAfter, None;
  }

  // ---------------------------------------------------------------------------
  // Chunking

  /**
    The chunks of a sequence of lines: a chunk starts at the first line and at
    every later line beginning with `p`; every other line joins the chunk before it.
  */
  function Chunks(lines: seq<string>): (cs: seq<seq<string>>)
    ensures |cs| == 0 <==> lines == []
    ensures forall k | 0 <= k < |cs| :: cs[k] != []
    decreases |lines|
  {
    if lines == [] then []
    else
      var front, line := Chunks(lines[..|lines| - 1]), lines[|lines| - 1];
      if front == [] || StartsWithP(line) then front + [[line]]
      else front[..|front| - 1] + [front[|front| - 1] + [line]]
  }

  /** Adding a line at the end either opens a new chunk (a `p` line, or the first line) or extends the last one. */
  lemma ChunksSnoc(lines: seq<string>, line: string)
    ensures var cs := Chunks(lines);
      Chunks(lines + [line]) ==
        if lines == [] || StartsWithP(line) then cs + [[line]]
        else cs[..|cs| - 1] + [cs[|cs| - 1] + [line]]
  {
    assert (lines + [line])[..|lines|] == lines;
  }

  /** All the chunks, concatenated. */
  function Flatten(cs: seq<seq<string>>): seq<string> {
    if cs == [] then [] else Flatten(cs[..|cs| - 1]) + cs[|cs| - 1]
  }

  /** Concatenated, the chunks give back the lines, in order: no line is lost, repeated or moved. */
  lemma {:induction false} ChunksFlatten(lines: seq<string>)
    ensures Flatten(Chunks(lines)) == lines
    decreases |lines|
  {
    if lines != [] {
      var n := |lines|;
      var front, line := lines[..n - 1], lines[n - 1];
      ChunksFlatten(front);
      var fc := Chunks(front);
      assert lines == front + [line];
      if fc == [] || StartsWithP(line) {
        assert (fc + [[line]])[..|fc|] == fc;
      } else {
        var m := |fc|;
        var cs := fc[..m - 1] + [fc[m - 1] + [line]];
        assert cs[..m - 1] == fc[..m - 1];
        assert Flatten(fc) == Flatten(fc[..m - 1]) + fc[m - 1];
      }
    }
  }

  /** Every chunk after the first starts with a `p` line. */
  lemma {:induction false} ChunksStartWithP(lines: seq<string>)
    ensures forall k | 0 < k < |Chunks(lines)| :: StartsWithP(Chunks(lines)[k][0])
    decreases |lines|
  {
    if lines != [] {
      var n := |lines|;
      var front, line := lines[..n - 1], lines[n - 1];
      ChunksStartWithP(front);
      var fc, cs := Chunks(front), Chunks(lines);
      forall k | 0 < k < |cs| ensures StartsWithP(cs[k][0]) {
        if k < |fc| - 1 || (k == |fc| - 1 && fc != [] && !StartsWithP(line)) {
          assert cs[k][0] == fc[k][0];
        } else if k < |fc| {
          assert cs[k] == fc[k];
        }
      }
    }
  }

  /** No line of a chunk other than its first starts with `p`. */
  lemma {:induction false} ChunksContinue(lines: seq<string>)
    ensures forall k, j | 0 <= k < |Chunks(lines)| && 0 < j < |Chunks(lines)[k]| ::
      !StartsWithP(Chunks(lines)[k][j])
    decreases |lines|
  {
    if lines != [] {
      var n := |lines|;
      var front, line := lines[..n - 1], lines[n - 1];
      ChunksContinue(front);
      var fc, cs := Chunks(front), Chunks(lines);
      forall k, j | 0 <= k < |cs| && 0 < j < |cs[k]| ensures !StartsWithP(cs[k][j]) {
        if k < |fc| && j < |fc[k]| {
          assert cs[k][j] == fc[k][j];
        }
      }
    }
  }

  /** Every line of a chunk comes from the lines chunked. */
  lemma {:induction false} ChunksMembers(lines: seq<string>)
    ensures forall k, j | 0 <= k < |Chunks(lines)| && 0 <= j < |Chunks(lines)[k]| :: Chunks(lines)[k][j] in lines
    decreases |lines|
  {
    if lines != [] {
      var n := |lines|;
      var front, line := lines[..n - 1], lines[n - 1];
      ChunksMembers(front);
      var fc, cs := Chunks(front), Chunks(lines);
      forall k, j | 0 <= k < |cs| && 0 <= j < |cs[k]| ensures cs[k][j] in lines {
        if k < |fc| && j < |fc[k]| {
          assert cs[k][j] == fc[k][j];
          assert fc[k][j] in front;
        } else {
          assert cs[k][j] == line;
        }
      }
    }
  }

  /** The number of lines starting with `p`. */
  function CountP(lines: seq<string>): nat {
    if lines == [] then 0 else CountP(lines[..|lines| - 1]) + (if StartsWithP(lines[|lines| - 1]) then 1 else 0)
  }

  /** There is one chunk for the first line and one for every later line starting with `p`. */
  lemma {:induction false} ChunksCount(lines: seq<string>)
    ensures |Chunks(lines)| == if lines == [] then 0 else 1 + CountP(lines[1..])
    decreases |lines|
  {
    if |lines| > 1 {
      var n := |lines|;
      var front := lines[..n - 1];
      ChunksCount(front);
      assert lines[1..][..n - 2] == front[1..];
    }
  }

  // ---------------------------------------------------------------------------
  // parse

  /** The lines after the header: the first line is dropped when there is more than one. */
  function DataLines(s: string): (lines: seq<string>)
    ensures |lines| >= 1 && forall k | 0 <= k < |lines| :: '\n' !in lines[k]
  {
    var lines := SplitLines(s);
    if |lines| > 1 then lines[1..] else lines
  }

  /** The lines that are not white space only, in order. */
  function NonBlank(lines: seq<string>): (kept: seq<string>)
    ensures forall k | 0 <= k < |kept| :: kept[k] in lines && !IsBlank(kept[k])
    decreases |lines|
  {
    if lines == [] then []
    else
      var front := NonBlank(lines[..|lines| - 1]);
      if IsBlank(lines[|lines| - 1]) then front else front + [lines[|lines| - 1]]
  }

  /** The lines parse groups into chunks. */
  function Kept(s: string): seq<string> {
    NonBlank(DataLines(s))
  }

  /**
    What parse demands of its input so that Go does not panic: every line that
    reaches Process.fillField has at least nine fields.
  */
  predicate WellFormed(s: string) {
    forall line | line in DataLines(s) && !IsBlank(line) :: |Fields(line)| >= 9
  }

  predicate ChunksFillable(cs: seq<seq<string>>) {
    forall k | 0 <= k < |cs| :: AllFillable(cs[k])
  }

  /** One record per chunk, in order. */
  function Processes(cs: seq<seq<string>>): (ps: seq<Process>)
    requires ChunksFillable(cs)
    ensures |ps| == |cs|
  {
    if cs == [] then [] else Processes(cs[..|cs| - 1]) + [ProcessOf(cs[|cs| - 1])]
  }

  /** Record k is the record of chunk k. */
  lemma {:induction false} ProcessesAt(cs: seq<seq<string>>, k: nat)
    requires ChunksFillable(cs) && k < |cs|
    ensures Processes(cs)[k] == ProcessOf(cs[k])
    decreases |cs|
  {
    if k < |cs| - 1 {
      ProcessesAt(cs[..|cs| - 1], k);
    }
  }

  /** Chunks of lines Process.fillField can take hold only such lines. */
  lemma ChunksFillableOf(lines: seq<string>)
    requires AllFillable(lines)
    ensures ChunksFillable(Chunks(lines))
  {
    ChunksMembers(lines);
  }

  /** What parse returns for a well-formed text. */
  function ParseResult(s: string): (ps: seq<Process>)
    requires WellFormed(s)
    ensures |ps| == 0 <==> Kept(s) == []
  {
    KeptFillable(s);
    ChunksFillableOf(Kept(s));
    Processes(Chunks(Kept(s)))
  }

  /** The lines kept from a well-formed text can all be filled into a Process. */
  lemma KeptFillable(s: string)
    requires WellFormed(s)
    ensures AllFillable(Kept(s))
  {
  }

  /** The lines kept from any text hold no empty line. */
  lemma KeptNoEmpty(s: string)
    ensures "" !in Kept(s)
  {
    assert IsBlank("");
  }

  /** What parse returns, given the lines it keeps. */
  lemma ParseOfKept(s: string, kept: seq<string>)
    requires WellFormed(s) && Kept(s) == kept
    ensures AllFillable(kept) && ChunksFillable(Chunks(kept))
    ensures ParseResult(s) == Processes(Chunks(kept))
  {
    KeptFillable(s);
    ChunksFillableOf(kept);
  }

  /**
    The state of parse's loop once it has seen the non-blank lines kept: the
    records of every chunk but the last, and the last chunk, still open.
  */
  predicate Assembled(kept: seq<string>, processes: seq<Process>, linesChunk: seq<string>)
    requires AllFillable(kept)
  {
    ChunksFillableOf(kept);
    var cs := Chunks(kept);
    if kept == [] then processes == [] && linesChunk == []
    else processes == Processes(cs[..|cs| - 1]) && linesChunk == cs[|cs| - 1]
  }

  /** Records of chunks, one chunk more. */
  lemma ProcessesSnoc(cs: seq<seq<string>>, c: seq<string>)
    requires ChunksFillable(cs) && AllFillable(c)
    ensures ChunksFillable(cs + [c])
    ensures Processes(cs + [c]) == Processes(cs) + [ProcessOf(c)]
  {
    assert (cs + [c])[..|cs|] == cs;
  }

  /** Appending a line to lines that can all be filled. */
  lemma AllFillableSnoc(lines: seq<string>, line: string)
    requires AllFillable(lines) && Fillable(line)
    ensures AllFillable(lines + [line])
  {
    assert forall k | 0 <= k < |lines| :: (lines + [line])[k] == lines[k];
  }

  /** One step of parse's loop on a `p` line while a chunk is open: the chunk becomes a record, the line opens a new chunk. */
  lemma AssembleStepP(kept: seq<string>, processes: seq<Process>, linesChunk: seq<string>, line: string)
    requires AllFillable(kept) && AllFillable(linesChunk) && Fillable(line)
    requires Assembled(kept, processes, linesChunk)
    requires StartsWithP(line) && linesChunk != []
    ensures AllFillable(kept + [line])
    ensures Assembled(kept + [line], processes + [ProcessOf(linesChunk)], [line])
  {
    AllFillableSnoc(kept, line);
    ChunksFillableOf(kept);
    ChunksSnoc(kept, line);
    var cs := Chunks(kept);
    var front := cs[..|cs| - 1];
    assert (cs + [[line]])[..|cs|] == cs;
    assert cs == front + [linesChunk];
    ProcessesSnoc(front, linesChunk);
  }

  /** One step of parse's loop on any other non-blank line: the line joins the open chunk (or opens the first). */
  lemma AssembleStepJoin(kept: seq<string>, processes: seq<Process>, linesChunk: seq<string>, line: string)
    requires AllFillable(kept) && AllFillable(linesChunk) && Fillable(line)
    requires Assembled(kept, processes, linesChunk)
    requires !(StartsWithP(line) && linesChunk != [])
    ensures AllFillable(kept + [line])
    ensures Assembled(kept + [line], processes, linesChunk + [line])
  {
    AllFillableSnoc(kept, line);
    ChunksSnoc(kept, line);
    ChunksFillableOf(kept);
    ChunksFillableOf(kept + [line]);
    var cs, ds := Chunks(kept), Chunks(kept + [line]);
    if kept == [] {
      assert ds == [[line]];
    } else {
      var n := |cs|;
      assert linesChunk == cs[n - 1];
      assert ds == cs[..n - 1] + [cs[n - 1] + [line]];
      assert |ds| == n;
      assert ds[..n - 1] == cs[..n - 1];
      assert ds[n - 1] == linesChunk + [line];
      assert processes == Processes(ds[..n - 1]);
    }
  }

  /** After the last line, closing the open chunk gives one record per chunk. */
  lemma AssembleDone(kept: seq<string>, processes: seq<Process>, linesChunk: seq<string>)
    requires AllFillable(kept) && AllFillable(linesChunk)
    requires Assembled(kept, processes, linesChunk)
    ensures ChunksFillable(Chunks(kept))
    ensures (if linesChunk == [] then processes else processes + [ProcessOf(linesChunk)])
      == Processes(Chunks(kept))
  {
    ChunksFillableOf(kept);
    var cs := Chunks(kept);
    if kept != [] {
      var n := |cs|;
      assert processes == Processes(cs[..n - 1]) && linesChunk == cs[n - 1];
      assert linesChunk != [];
      assert cs == cs[..n - 1] + [cs[n - 1]];
      ProcessesSnoc(cs[..n - 1], cs[n - 1]);
    } else {
      assert processes == [] && linesChunk == [];
    }
  }

  /** Every line of the data lines that is not white space only can be filled into a Process. */
  predicate DataFillable(lines: seq<string>) {
    forall k | 0 <= k < |lines| && !IsBlank(lines[k]) :: lines[k] != "" && Fillable(lines[k])
  }

  lemma DataFillableOf(s: string)
    requires WellFormed(s)
    ensures DataFillable(DataLines(s))
  {
    var lines := DataLines(s);
    forall k | 0 <= k < |lines| && !IsBlank(lines[k])
      ensures lines[k] != "" && Fillable(lines[k])
    {
      assert lines[k] in lines;
    }
  }

  lemma DataFillablePrefix(lines: seq<string>, n: nat)
    requires DataFillable(lines) && n <= |lines|
    ensures DataFillable(lines[..n])
  {
    assert forall k | 0 <= k < n :: lines[..n][k] == lines[k];
  }

  /**
    The state of parse's loop after the given data lines: the records closed so
    far and the open chunk, one line at a time.
  */
  function LoopState(lines: seq<string>): (st: (seq<Process>, seq<string>))
    requires DataFillable(lines)
    ensures AllFillable(st.1) && "" !in st.1
    decreases |lines|
  {
    if lines == [] then ([], [])
    else
      DataFillablePrefix(lines, |lines| - 1);
      var st := LoopState(lines[..|lines| - 1]);
      var line := lines[|lines| - 1];
      if IsBlank(line) then st
      else
        assert line != "" && Fillable(line);
        AllFillableSnoc(st.1, line);
        if StartsWithP(line) && |st.1| > 0 then (st.0 + [ProcessOf(st.1)], [line])
        else (st.0, st.1 + [line])
  }

  /** One more data line: parse's loop skips it, closes the open chunk at it, or adds it to the open chunk. */
  lemma LoopStateStep(lines: seq<string>, i: nat)
    requires DataFillable(lines) && i < |lines|
    ensures DataFillable(lines[..i]) && DataFillable(lines[..i + 1])
    ensures var st, line := LoopState(lines[..i]), lines[i];
      LoopState(lines[..i + 1]) ==
        if IsBlank(line) then st
        else if StartsWithP(line) && |st.1| > 0 then (st.0 + [ProcessOf(st.1)], [line])
        else (st.0, st.1 + [line])
  {
    DataFillablePrefix(lines, i);
    DataFillablePrefix(lines, i + 1);
    assert lines[..i + 1][..i] == lines[..i];
  }

  /** The loop state is the chunking of the kept lines: the records of every chunk but the last, and the last. */
  lemma {:induction false} LoopStateAssembled(lines: seq<string>)
    requires DataFillable(lines)
    ensures AllFillable(NonBlank(lines))
    ensures Assembled(NonBlank(lines), LoopState(lines).0, LoopState(lines).1)
    decreases |lines|
  {
    if lines != [] {
      var front, line := lines[..|lines| - 1], lines[|lines| - 1];
      DataFillablePrefix(lines, |lines| - 1);
      LoopStateAssembled(front);
      var kept := NonBlank(front);
      var st := LoopState(front);
      if !IsBlank(line) {
        assert Fillable(line);
        if StartsWithP(line) && |st.1| > 0 {
          AssembleStepP(kept, st.0, st.1, line);
        } else {
          AssembleStepJoin(kept, st.0, st.1, line);
        }
      }
    }
  }

  /**
    parse: split the text into lines, drop the header, skip blank lines, cut
    the rest into chunks at the `p` lines and turn each chunk into a record.
    Its error result is always nil: no empty line reaches Process.fillField.
  */
  method Parse(s: string) returns (processes: seq<Process>, err: Option<Error>)
    requires WellFormed(s)
    ensures err == None
    ensures processes == ParseResult(s)
  {
    var lines := SplitLines(s);
    var linesChunk: seq<string> := [];
    processes := [];
    if |lines| > 1 {
      var newLines := lines[1..];
      lines := newLines;
    }
    assert lines == DataLines(s);
    DataFillableOf(s);
    for i := 0 to |lines|
      invariant DataFillable(lines[..i])
      invariant (processes, linesChunk) == LoopState(lines[..i])
    {
      var line := lines[i];
      LoopStateStep(lines, i);
      if IsBlank(line) {
        continue;
      }
      ghost var next := LoopState(lines[..i + 1]);
      if StartsWithP(line) && |linesChunk| > 0 {
        assert next == (processes + [ProcessOf(linesChunk)], [line]);
        processes, linesChunk, err := ParseAppendProcessLines(processes, linesChunk);
        if err.Some? {
          // Go returns nil and the error here; the open chunk holds no empty line, so it never does.
          assert false;
        }
        assert processes == next.0 && linesChunk == [];
        assert linesChunk + [line] == next.1;
      } else {
        assert next == (processes, linesChunk + [line]);
      }
      linesChunk := linesChunk + [line];
      assert (processes, linesChunk) == next;
    }
    assert lines[..|lines|] == lines;
    LoopStateAssembled(lines);
    ParseOfKept(s, NonBlank(lines));
    AssembleDone(NonBlank(lines), processes, linesChunk);
    processes, linesChunk, err := ParseAppendProcessLines(processes, linesChunk);
  }

  // ---------------------------------------------------------------------------
  // Properties of parse

  /** The header is dropped exactly when the text holds a newline: a text without one is a data line. */
  lemma HeaderDropped(s: string)
    ensures '\n' in s ==> DataLines(s) == SplitLines(s)[1..]
    ensures '\n' !in s ==> DataLines(s) == [s]
  {
    SplitLinesMany(s);
    if '\n' !in s {
      SplitLinesSingle(s);
    }
  }

  /** A line is kept exactly when it is a line of the input that is not white space only. */
  lemma {:induction false} NonBlankMembers(lines: seq<string>, line: string)
    ensures line in NonBlank(lines) <==> line in lines && !IsBlank(line)
    decreases |lines|
  {
    if lines != [] {
      var front := lines[..|lines| - 1];
      NonBlankMembers(front, line);
      assert lines == front + [lines[|lines| - 1]];
    }
  }

  /** The skip works line by line: the kept lines of a concatenation are those of each part, in order. */
  lemma {:induction false} NonBlankAppend(a: seq<string>, b: seq<string>)
    ensures NonBlank(a + b) == NonBlank(a) + NonBlank(b)
    decreases |b|
  {
    if b == [] {
      assert a + b == a;
    } else {
      var front := b[..|b| - 1];
      NonBlankAppend(a, front);
      assert (a + b)[..|a + b| - 1] == a + front;
      assert (a + b)[|a + b| - 1] == b[|b| - 1];
    }
  }

  /** A line that is white space only is skipped. */
  lemma OneBlank(line: string)
    requires IsBlank(line)
    ensures NonBlank([line]) == []
  {
    assert [line][..0] == [];
  }

  /** parse returns one record for the first kept line and one more for every later kept line starting with `p`. */
  lemma ParseCount(s: string)
    requires WellFormed(s)
    ensures |ParseResult(s)| == if Kept(s) == [] then 0 else 1 + CountP(Kept(s)[1..])
  {
    ChunksCount(Kept(s));
  }

  /**
    Record k of parse is built from chunk k alone: PID, Command and UserID from
    its last line, PortNumber from its last line naming a port, or 0.
  */
  lemma ParseRecord(s: string, k: nat)
    requires WellFormed(s) && k < |ParseResult(s)|
    ensures var c := Chunks(Kept(s))[k];
      c != [] && AllFillable(c) && "" !in c &&
      var last := Fields(c[|c| - 1]);
      ParseResult(s)[k] == Process(last[1], last[0], last[2], LastPort(0, c))
  {
    var kept := Kept(s);
    ParseOfKept(s, kept);
    KeptNoEmpty(s);
    ChunkOf(kept, k);
    ProcessOfChunk(Chunks(kept)[k]);
    ProcessesAt(Chunks(kept), k);
  }

  /** A chunk of lines that can all be filled and are not empty is itself such. */
  lemma ChunkOf(lines: seq<string>, k: nat)
    requires AllFillable(lines) && "" !in lines && k < |Chunks(lines)|
    ensures var c := Chunks(lines)[k];
      c != [] && AllFillable(c) && "" !in c
  {
    ChunksMembers(lines);
    var c := Chunks(lines)[k];
    forall j | 0 <= j < |c| ensures c[j] != "" && Fillable(c[j]) {
      assert c[j] in lines;
    }
  }

  /** Every record parse returns has a non-empty PID and UserID: fields 1 and 2 of a line of nine or more fields. */
  lemma ParseIdentity(s: string, k: nat)
    requires WellFormed(s) && k < |ParseResult(s)|
    ensures ParseResult(s)[k].PID != "" && ParseResult(s)[k].UserID != ""
  {
    var kept := Kept(s);
    ParseOfKept(s, kept);
    KeptNoEmpty(s);
    ChunkOf(kept, k);
    var c := Chunks(kept)[k];
    FoldLinesError(ZeroProcess, c);
    ProcessesAt(Chunks(kept), k);
  }

  /**
    The Command of a line starting with white space is empty: Split keeps the
    empty piece before the leading run, and that piece is field 0.
  */
  lemma LeadingSpaceCommand(p: Process, line: string)
    requires Fillable(line) && line != "" && IsRegexpSpace(line[0])
    ensures Filled(p, line).Command == ""
  {
  }

  /** A single kept line is a single chunk, and becomes the record filled from it. */
  lemma OneKeptLine(line: string)
    requires line != "" && Fillable(line)
    ensures ChunksFillable(Chunks([line]))
    ensures Processes(Chunks([line])) == [Filled(ZeroProcess, line)]
  {
    assert [line][..0] == [];
    assert Chunks([line]) == [[line]];
    assert FoldLines(ZeroProcess, [line]) == (Filled(ZeroProcess, line), None) by {
      assert [line][1..] == [];
    }
  }

  /** A text that keeps a single line gives the one record filled from it. */
  lemma ParseOneKept(s: string, line: string)
    requires WellFormed(s) && Kept(s) == [line] && line != "" && Fillable(line)
    ensures ParseResult(s) == [Filled(ZeroProcess, line)]
  {
    ParseOfKept(s, [line]);
    OneKeptLine(line);
  }

  /** A single line that is not white space only is kept. */
  lemma OneNonBlank(line: string)
    requires !IsBlank(line)
    ensures NonBlank([line]) == [line]
  {
    assert [line][..0] == [];
  }

  /** A text without a newline is a single data line, and becomes a single record. */
  lemma SingleLine(s: string)
    requires '\n' !in s && !IsBlank(s) && |Fields(s)| >= 9
    ensures WellFormed(s)
    ensures ParseResult(s) == [Filled(ZeroProcess, s)]
  {
    HeaderDropped(s);
    OneLineWellFormed(s, s);
    OneNonBlank(s);
    ParseOneKept(s, s);
  }

  /** A text whose data lines are one line of nine or more fields is well formed. */
  lemma OneLineWellFormed(s: string, line: string)
    requires DataLines(s) == [line] && |Fields(line)| >= 9
    ensures WellFormed(s)
  {
    forall l | l in DataLines(s) && !IsBlank(l)
      ensures |Fields(l)| >= 9
    {
      assert l == line;
    }
  }

  /** The data lines of a header line followed by one newline-terminated line. */
  lemma OneDataLine(header: string, line: string)
    requires '\n' !in header && '\n' !in line
    ensures DataLines(header + "\n" + line + "\n") == [line, ""]
  {
    var s := header + "\n" + line + "\n";
    assert s == header + "\n" + (line + "\n" + "");
    SplitLinesAppend(header, line + "\n" + "");
    SplitLinesAppend(line, "");
    assert SplitLines(s) == [header, line, ""];
  }

  /** A non-blank line followed by the empty line keeps only the former. */
  lemma TrailingBlank(line: string)
    requires !IsBlank(line)
    ensures NonBlank([line, ""]) == [line]
  {
    assert [line, ""][..1] == [line];
    OneNonBlank(line);
    assert IsBlank("");
  }

  /** A header line followed by one newline-terminated data line gives the record of that line. */
  lemma HeaderAndLine(header: string, line: string)
    requires '\n' !in header && '\n' !in line && !IsBlank(line) && |Fields(line)| >= 9
    ensures WellFormed(header + "\n" + line + "\n")
    ensures ParseResult(header + "\n" + line + "\n") == [Filled(ZeroProcess, line)]
  {
    var s := header + "\n" + line + "\n";
    OneDataLine(header, line);
    assert WellFormed(s) by {
      forall l | l in DataLines(s) && !IsBlank(l)
        ensures |Fields(l)| >= 9
      {
        assert l == line || l == "";
      }
    }
    TrailingBlank(line);
    ParseOneKept(s, line);
  }

  /** The columns of the sshd listening line. */
  function SshdWords(): seq<string> {
    ["sshd", "100", "root", "3u", "IPv4", "12345", "0t0", "TCP", "*:22", "(LISTEN)"]
  }

  /** The sshd listening line, its columns separated by single spaces. */
  function SshdLine(): string {
    JoinSpaced(SshdWords())
  }

  /** A non-empty word of printable ASCII characters other than the space is one field. */
  lemma PrintableWord(w: string)
    requires w != [] && forall i | 0 <= i < |w| :: '!' <= w[i] <= '~'
    ensures NoSpace(w) && w != ""
  {
  }

  /** No column of the sshd line is empty or holds white space. */
  lemma SshdWordsPlain()
    ensures forall k | 0 <= k < |SshdWords()| :: NoSpace(SshdWords()[k]) && SshdWords()[k] != ""
  {
    PrintableWord("sshd");
    PrintableWord("100");
    PrintableWord("root");
    PrintableWord("3u");
    PrintableWord("IPv4");
    PrintableWord("12345");
    PrintableWord("0t0");
    PrintableWord("TCP");
    PrintableWord("*:22");
    PrintableWord("(LISTEN)");
  }

  /** The sshd line splits back into its ten columns; it holds no newline and is not blank. */
  lemma SshdLineFields()
    ensures Fields(SshdLine()) == SshdWords()
    ensures '\n' !in SshdLine() && !IsBlank(SshdLine())
  {
    SshdWordsPlain();
    FieldsJoinSpaced(SshdWords());
    JoinSpacedNoNewline(SshdWords());
    assert SshdLine()[0] == 's';
  }

  /** A line with the sshd columns fills the record of sshd listening on port 22. */
  lemma SshdRecord(line: string)
    requires Fields(line) == ["sshd", "100", "root", "3u", "IPv4", "12345", "0t0", "TCP", "*:22", "(LISTEN)"]
    ensures Filled(ZeroProcess, line) == Process("100", "sshd", "root", 22)
  {
    var values := Fields(line);
    assert line != "";
    assert values[0] == "sshd" && values[1] == "100" && values[2] == "root" && values[8] == "*:22";
    assert FindDigits("*:22") == "22";
    assert PortOf("*:22") == Some(22);
  }

  /**
    Any header line followed by one listening socket of sshd on port 22 gives
    exactly that record: the header, whatever its columns, is not taken for data.
  */
  lemma ListeningSocket(header: string)
    requires '\n' !in header
    ensures WellFormed(header + "\n" + SshdLine() + "\n")
    ensures ParseResult(header + "\n" + SshdLine() + "\n") == [Process("100", "sshd", "root", 22)]
  {
    var line := SshdLine();
    SshdLineFields();
    SshdRecord(line);
    HeaderAndLine(header, line);
  }

  // ---------------------------------------------------------------------------
  // Finding: lines of the listening-socket listing are merged

  /**
    As written: two listening lines after the header, the second not starting
    with `p`, give one record, the second filled over the first (its port
    falling back to the first line's when its own names none).
  */
  lemma MergedListeners(header: string, l1: string, l2: string)
    requires '\n' !in header && '\n' !in l1 && '\n' !in l2
    requires !IsBlank(l1) && !IsBlank(l2) && |Fields(l1)| >= 9 && |Fields(l2)| >= 9
    requires !StartsWithP(l2)
    ensures WellFormed(header + "\n" + l1 + "\n" + l2)
    ensures ParseResult(header + "\n" + l1 + "\n" + l2) == [Filled(Filled(ZeroProcess, l1), l2)]
  {
    var s := header + "\n" + l1 + "\n" + l2;
    TwoLines(header, l1, l2);
    assert IsBlank("");
    ParseOfKept(s, [l1, l2]);
    OneMergedChunk(l1, l2);
  }

  /** Two kept lines, the second not starting with `p`, are one chunk, and the second is filled over the first. */
  lemma OneMergedChunk(l1: string, l2: string)
    requires l1 != "" && l2 != "" && Fillable(l1) && Fillable(l2) && !StartsWithP(l2)
    ensures ChunksFillable(Chunks([l1, l2]))
    ensures Processes(Chunks([l1, l2])) == [Filled(Filled(ZeroProcess, l1), l2)]
  {
    assert [l1, l2][..1] == [l1];
    assert [l1][..0] == [];
    assert Chunks([l1]) == [[l1]];
    assert [l1] + [l2] == [l1, l2];
    assert Chunks([l1, l2]) == [[l1, l2]];
    var p1 := Filled(ZeroProcess, l1);
    assert [l1, l2][1..] == [l2];
    assert [l2][1..] == [];
    assert FoldLines(p1, [l2]) == (Filled(p1, l2), None);
    assert FoldLines(ZeroProcess, [l1, l2]) == (Filled(p1, l2), None);
    assert Chunks([l1, l2])[..0] == [];
  }

  /** The data lines of a header followed by two lines. */
  lemma TwoDataLines(header: string, l1: string, l2: string)
    requires '\n' !in header && '\n' !in l1 && '\n' !in l2
    ensures DataLines(header + "\n" + l1 + "\n" + l2) == [l1, l2]
  {
    var s := header + "\n" + l1 + "\n" + l2;
    assert s == header + "\n" + (l1 + "\n" + l2);
    SplitLinesAppend(header, l1 + "\n" + l2);
    SplitLinesAppend(l1, l2);
    SplitLinesSingle(l2);
    assert SplitLines(s) == [header, l1, l2];
  }

  /** Two lines that are not white space only are both kept. */
  lemma TwoKept(l1: string, l2: string)
    requires !IsBlank(l1) && !IsBlank(l2)
    ensures NonBlank([l1, l2]) == [l1, l2]
  {
    assert [l1, l2][..1] == [l1];
    assert NonBlank([l1]) == [l1] by {
      assert [l1][..0] == [];
    }
  }

  /** A header followed by two lines of at least nine fields is well formed, and both lines are kept. */
  lemma TwoLines(header: string, l1: string, l2: string)
    requires '\n' !in header && '\n' !in l1 && '\n' !in l2
    requires !IsBlank(l1) && !IsBlank(l2) && |Fields(l1)| >= 9 && |Fields(l2)| >= 9
    ensures WellFormed(header + "\n" + l1 + "\n" + l2)
    ensures Kept(header + "\n" + l1 + "\n" + l2) == [l1, l2]
  {
    TwoDataLines(header, l1, l2);
    TwoKept(l1, l2);
  }

  /**
    Corrected: the listing that `lsof -i -n -P -sTCP:LISTEN` prints has one
    socket per line, so every kept line is its own record.
  */
  function ParsePerLine(s: string): (ps: seq<Process>)
    requires WellFormed(s)
    ensures |ps| == |Kept(s)|
    ensures forall k | 0 <= k < |ps| :: ps[k].PID != "" && ps[k].UserID != ""
  {
    KeptFillable(s);
    KeptNoEmpty(s);
    var kept := Kept(s);
    seq(|kept|, k requires 0 <= k < |kept| => Filled(ZeroProcess, kept[k]))
  }

  /**
    The corrected parse gives one record per data line that is not white space
    only, each built from its own line: PID, Command and UserID from its fields
    0 to 2, PortNumber from its field 8, or 0.
  */
  lemma PerLineRecords(s: string, line: string)
    requires WellFormed(s)
    ensures |ParsePerLine(s)| == |Kept(s)|
    ensures line in DataLines(s) && !IsBlank(line) ==>
      var f := Fields(line); var port := PortOf(f[8]);
      Process(f[1], f[0], f[2], if port.Some? then port.value else 0) in ParsePerLine(s)
  {
    KeptFillable(s);
    NonBlankMembers(DataLines(s), line);
    if line in DataLines(s) && !IsBlank(line) {
      var kept := Kept(s);
      var k :| 0 <= k < |kept| && kept[k] == line;
      assert ParsePerLine(s)[k] == Filled(ZeroProcess, line);
    }
  }

  /** The corrected parse keeps both listening lines apart. */
  lemma SeparateListeners(header: string, l1: string, l2: string)
    requires '\n' !in header && '\n' !in l1 && '\n' !in l2
    requires !IsBlank(l1) && !IsBlank(l2) && |Fields(l1)| >= 9 && |Fields(l2)| >= 9
    ensures WellFormed(header + "\n" + l1 + "\n" + l2)
    ensures ParsePerLine(header + "\n" + l1 + "\n" + l2) == [Filled(ZeroProcess, l1), Filled(ZeroProcess, l2)]
  {
    TwoLines(header, l1, l2);
  }
}
