/**
 The reloadable log destination of pkg/logging/sink.go, as the object that one goroutine at a
 time uses under its lock.
 */
module LogSink {
  import opened Wrappers

  const STDERR: string := "stderr"

  /** A log file. Closing it twice, or appending to it once closed, is an error. */
  class LogFile {
    const path: string
    var closed: bool
    var content: seq<string>

    constructor (path: string)
      ensures this.path == path && !closed && content == []
    {
      this.path := path;
      closed := false;
      content := [];
    }

    method Append(text: string)
      requires !closed
      modifies this`content
      ensures content == old(content) + [text]
    {
      content := content + [text];
    }

    method Close()
      requires !closed
      modifies this`closed
      ensures closed
    {
      closed := true;
    }
  }

  datatype Writer = Unset | HttpOut | ErrOut | Discard | ToFile(file: LogFile)

  /** The destinations that need no file. */
  function Standard(httpMode: bool, logFile: string): Writer {
    if logFile == STDERR then ErrOut else if httpMode then HttpOut else Discard
  }

  /** A destination that is constant for the process, so that applying it again changes nothing. */
  predicate IsStandard(logFile: string) {
    logFile == "" || logFile == STDERR
  }

  /** What a sink looks like from outside: where text goes, and the last applied setting. */
  datatype Destination = NoWriter | HttpOutput | ErrOutput | Nowhere | FileAt(path: string)

  datatype View = View(destination: Destination, lastLogFile: string, applied: bool)

  function StandardDestination(httpMode: bool, logFile: string): Destination {
    if logFile == STDERR then ErrOutput else if httpMode then HttpOutput else Nowhere
  }

  /** One applyDestination, undisturbed. */
  function Applied(httpMode: bool, v: View, logFile: string, canOpen: bool): View {
    if v.applied && logFile == v.lastLogFile && IsStandard(logFile) then v
    else if IsStandard(logFile) then View(StandardDestination(httpMode, logFile), logFile, true)
    else if canOpen then View(FileAt(logFile), logFile, true)
    else v
  }

  class Sink {
    const httpMode: bool
    var writer: Writer
    var file: LogFile?
    var lastLogFile: string
    var applied: bool
    // What went to the process-level outputs, oldest first.
    var httpOut: seq<string>
    var errOut: seq<string>

    ghost function OpenFile(): set<LogFile>
      reads this
    {
      if file == null then {} else {file}
    }

    ghost function Shown(): View
      reads this
    {
      var destination := match writer
        case Unset => NoWriter
        case HttpOut => HttpOutput
        case ErrOut => ErrOutput
        case Discard => Nowhere
        case ToFile(f) => FileAt(f.path);
      View(destination, lastLogFile, applied)
    }

    /** The writer is the open file if there is one, and no closed file is within reach. */
    ghost predicate Valid()
      reads this, file
    {
      && (file != null ==> !file.closed && writer == ToFile(file))
      && (writer.ToFile? ==> file != null)
      && (writer == Unset ==> !applied)
    }

    /** Until Close, the destination is the one that the last applied setting asks for. */
    ghost predicate Follows(logFile: string)
      reads this, file
    {
      && applied && lastLogFile == logFile
      && if IsStandard(logFile) then file == null && writer == Standard(httpMode, logFile)
         else file != null && file.path == logFile && writer == ToFile(file)
    }

    constructor (httpMode: bool)
      ensures Valid() && this.httpMode == httpMode && !applied && file == null && writer == Unset
    {
      this.httpMode := httpMode;
      writer, file, lastLogFile, applied := Unset, null, "", false;
      httpOut, errOut := [], [];
    }

    method Write(text: string)
      requires Valid()
      modifies this`httpOut, this`errOut, OpenFile()
      ensures Valid() && writer == old(writer) && file == old(file)
      ensures file != null ==> file.content == old(file.content) + [text] && file.closed == old(file.closed)
      ensures httpOut == old(httpOut) + if writer == HttpOut then [text] else []
      ensures errOut == old(errOut) + if writer == ErrOut then [text] else []
    {
      match writer
      case Unset =>
      case Discard =>
      case HttpOut => httpOut := httpOut + [text];
      case ErrOut => errOut := errOut + [text];
      case ToFile(f) => f.Append(text);
    }

    /** `canOpen` tells whether the operating system lets the file be opened. */
    method ApplyDestination(logFile: string, canOpen: bool) returns (err: Option<string>)
      requires Valid()
      modifies this`writer, this`file, this`lastLogFile, this`applied, OpenFile()
      ensures Valid() && Shown() == Applied(httpMode, old(Shown()), logFile, canOpen)
      ensures err.None? <==> logFile == "" || logFile == "stderr" || canOpen
      ensures err.None? ==> applied && lastLogFile == logFile
      ensures err.None? && !old(applied && lastLogFile == logFile && IsStandard(logFile)) ==>
                if logFile == "stderr" then writer == ErrOut
                else if logFile != "" then file != null && file.path == logFile && writer == ToFile(file)
                else writer == if httpMode then HttpOut else Discard
      ensures err.None? && old(applied ==> Follows(lastLogFile)) ==> Follows(logFile)
      ensures old(file) != null ==> old(file).content == old(file.content)
      ensures err.None? && !IsStandard(logFile) ==> file != null && fresh(file) && file.content == []
      ensures err.None? && old(file) != null ==> old(file).closed || (file == old(file) && old(applied) && logFile == old(lastLogFile) && IsStandard(logFile))
      ensures err.Some? ==>
        writer == old(writer) && file == old(file) && lastLogFile == old(lastLogFile) && applied == old(applied)
        && (file != null ==> !file.closed)
    {
      if applied && logFile == lastLogFile && IsStandard(logFile) {
        return None;
      }
      var newFile: LogFile? := null;
      var newWriter: Writer;
      if logFile == "" {
        newWriter := if httpMode then HttpOut else Discard;
      } else if logFile == STDERR {
        newWriter := ErrOut;
      } else if canOpen {
        newFile := new LogFile(logFile);
        newWriter := ToFile(newFile);
      } else {
        return Some("failed to open log file " + logFile);
      }
      lastLogFile := logFile;
      applied := true;
      var oldFile := file;
      writer := newWriter;
      file := newFile;
      if oldFile != null {
        oldFile.Close();
      }
      return None;
    }

    /** Closing the sink is idempotent, and later writes still land somewhere visible. */
    method Close()
      requires Valid()
      modifies this`writer, this`file, OpenFile()
      ensures Valid() && Shown() == old(Shown()).(destination := ErrOutput) && file == null
      ensures old(file) != null ==> old(file).closed && old(file).content == old(file.content)
    {
      writer := ErrOut;
      var old' := file;
      file := null;
      if old' != null {
        old'.Close();
      }
    }
  }
}
