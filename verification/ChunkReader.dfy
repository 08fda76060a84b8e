/** Sending files over a message stream: a reader hands out the bytes of the chunk messages of one file
    at a time, checks where the file ends, and acknowledges what it handed out. */
module ChunkReader {
  import opened Bytes
  import opened Optional

  datatype Input = Chunk(data: seq<Byte>) | FileDone | Other

  datatype Error = Eof | Broken | Unexpected | Changed

  const ACK_INTERVAL := 1_048_576

  // ----- what a stream of messages means -----

  datatype File = File(data: seq<Byte>, rest: seq<Input>)

  /** One file: the data of all chunks up to the end marker, and the messages after it. */
  function TakeFile(inbox: seq<Input>): Option<File> {
    if inbox == [] then None
    else match inbox[0]
      case FileDone => Some(File([], inbox[1..]))
      case Other => None
      case Chunk(data) =>
        var tail := TakeFile(inbox[1..]);
        if tail.None? then None else Some(File(data + tail.value.data, tail.value.rest))
  }

  /** Several files, one after the other. */
  function TakeFiles(inbox: seq<Input>, n: nat): Option<(seq<seq<Byte>>, seq<Input>)> {
    if n == 0 then Some(([], inbox))
    else
      var before := TakeFiles(inbox, n - 1);
      if before.None? then None
      else
        var file := TakeFile(before.value.1);
        if file.None? then None else Some((before.value.0 + [file.value.data], file.value.rest))
  }

  function Data(taken: seq<Input>): seq<Byte> {
    if taken == [] then []
    else
      var last := taken[|taken| - 1];
      Data(taken[..|taken| - 1]) + if last.Chunk? then last.data else []
  }

  predicate AllChunks(taken: seq<Input>) { forall m | m in taken :: m.Chunk? }

  lemma DataGrows(taken: seq<Input>, m: Input)
    ensures Data(taken + [m]) == Data(taken) + if m.Chunk? then m.data else []
  {
    assert (taken + [m])[..|taken|] == taken;
  }

  /** Leading chunks only add their data in front. */
  lemma {:induction false} ChunksThenFile(taken: seq<Input>, inbox: seq<Input>)
    requires AllChunks(taken)
    ensures var tail := TakeFile(inbox);
            TakeFile(taken + inbox) == if tail.None? then None else Some(File(Data(taken) + tail.value.data, tail.value.rest))
  {
    if taken == [] {
      assert taken + inbox == inbox;
      assert TakeFile(inbox).Some? ==> [] + TakeFile(inbox).value.data == TakeFile(inbox).value.data;
    } else {
      var rest, last := taken[..|taken| - 1], taken[|taken| - 1];
      assert last in taken && taken == rest + [last];
      ChunksThenFile(rest, [last] + inbox);
      assert rest + ([last] + inbox) == taken + inbox;
      assert ([last] + inbox)[1..] == inbox;
      var tail := TakeFile(inbox);
      assert tail.Some? ==> Data(rest) + (last.data + tail.value.data) == Data(taken) + tail.value.data;
    }
  }

  // ----- the reader -----

  /** The bytes handed out and buffered are those of the chunks taken; the end marker is taken last. */
  ghost predicate Framed(handed: seq<Byte>, buffer: seq<Byte>, taken: seq<Input>, done: bool) {
    && handed + buffer == Data(taken)
    && if done then taken != [] && taken[|taken| - 1].FileDone? && buffer == [] && AllChunks(taken[..|taken| - 1])
       else AllChunks(taken)
  }

  lemma FramedTakes(handed: seq<Byte>, taken: seq<Input>, message: Input)
    requires Framed(handed, [], taken, false)
    ensures message.Chunk? ==> Framed(handed, message.data, taken + [message], false)
    ensures message.FileDone? ==> Framed(handed, [], taken + [message], true)
  {
    DataGrows(taken, message);
    assert (taken + [message])[..|taken|] == taken && handed + [] == handed;
  }

  /** Every entry is at least one interval above the previous one, and the first above zero. */
  ghost predicate Spaced(reports: seq<nat>) {
    reports != [] ==>
      && ACK_INTERVAL <= reports[0]
      && forall i | 0 < i < |reports| :: reports[i - 1] + ACK_INTERVAL <= reports[i]
  }

  class Reader {
    var inbox: seq<Input>
    var buffer: seq<Byte>
    var fileDone: bool
    var fileReceived: nat
    var received: nat
    var acknowledged: nat
    var reports: seq<nat>

    // The messages taken and the bytes handed out since the file began.
    ghost var taken: seq<Input>
    ghost var handed: seq<Byte>

    ghost predicate FramingOk()
      reads this
    {
      fileReceived == |handed| && Framed(handed, buffer, taken, fileDone)
    }

    /** Each report is the running total, at least one interval after the previous. */
    ghost predicate AcksOk()
      reads this`received, this`acknowledged, this`reports
    {
      && acknowledged <= received < acknowledged + ACK_INTERVAL
      && acknowledged == (if reports == [] then 0 else reports[|reports| - 1])
      && Spaced(reports)
    }

    /** The stream from where the current file began. */
    ghost function Source(): seq<Input>
      reads this
    {
      taken + inbox
    }

    constructor (inbox: seq<Input>)
      ensures this.inbox == inbox && buffer == [] && !fileDone && received == 0 && reports == []
      ensures taken == [] && FramingOk() && AcksOk()
    {
      this.inbox := inbox;
      buffer, fileDone, fileReceived, received, acknowledged, reports := [], false, 0, 0, 0, [];
      taken, handed := [], [];
    }

    method BeginFile()
      requires buffer == [] && AcksOk()
      modifies this
      ensures FramingOk() && AcksOk() && !fileDone && taken == [] && handed == []
      ensures inbox == old(inbox) && buffer == [] && received == old(received) && reports == old(reports)
    {
      fileDone := false;
      fileReceived := 0;
      taken, handed := [], [];
    }

    /** Takes one message; only the framing changes. */
    method Receive() returns (error: Option<Error>)
      requires FramingOk() && AcksOk() && buffer == [] && !fileDone
      modifies this`inbox, this`taken, this`buffer, this`fileDone
      ensures AcksOk()
      ensures error.None? ==> FramingOk() && Source() == old(Source()) && |inbox| < |old(inbox)|
      ensures error.Some? ==> error.value in {Broken, Unexpected} && TakeFile(old(Source())).None?
    {
      if |inbox| == 0 {
        ChunksThenFile(taken, inbox);
        return Some(Broken);
      }
      var message := inbox[0];
      assert taken + inbox == (taken + [message]) + inbox[1..];
      FramedTakes(handed, taken, message);
      inbox := inbox[1..];
      taken := taken + [message];
      match message {
        case Chunk(data) =>
          buffer := data;
        case FileDone =>
          fileDone := true;
        case Other =>
          ChunksThenFile(old(taken), old(inbox));
          return Some(Unexpected);
      }
      error := None;
    }

    /** Hands out up to `size` bytes.  The end is reported only when the whole file has been handed out. */
    method Read(size: nat) returns (data: seq<Byte>, error: Option<Error>)
      requires FramingOk() && AcksOk()
      modifies this
      ensures AcksOk()
      ensures error.None? ==> FramingOk() && Source() == old(Source())
      ensures error.None? ==> handed == old(handed) + data && received == old(received) + |data|
      ensures error.None? ==> |data| <= size && (data == [] ==> size == 0)
      ensures error == Some(Eof) ==> data == [] && FramingOk() && Source() == old(Source()) && handed == old(handed)
                                     && TakeFile(Source()) == Some(File(handed, inbox))
      ensures error.Some? && error != Some(Eof) ==> TakeFile(old(Source())).None?
    {
      data := [];
      while |buffer| == 0
        invariant FramingOk() && AcksOk() && Source() == old(Source()) && handed == old(handed) && received == old(received)
        decreases |inbox|
      {
        if fileDone {
          WholeFile();
          return [], Some(Eof);
        }
        error := Receive();
        if error.Some? {
          return;
        }
      }
      var n := if size < |buffer| then size else |buffer|;
      data := buffer[..n];
      handed := handed + data;
      assert handed + buffer[n..] == old(handed) + buffer;
      buffer := buffer[n..];
      fileReceived := fileReceived + n;
      Acknowledge(n);
      error := None;
    }

    method Acknowledge(n: nat)
      requires AcksOk()
      modifies this`received, this`acknowledged, this`reports
      ensures AcksOk() && received == old(received) + n
    {
      received := received + n;
      if received - acknowledged >= ACK_INTERVAL {
        acknowledged := received;
        reports := reports + [received];
      }
    }

    /** At the end marker, the bytes handed out are the file. */
    lemma WholeFile()
      requires FramingOk() && fileDone
      ensures TakeFile(Source()) == Some(File(handed, inbox))
    {
      var chunks, done := taken[..|taken| - 1], taken[|taken| - 1];
      assert taken == chunks + [done] && Source() == chunks + ([done] + inbox);
      DataGrows(chunks, done);
      ChunksThenFile(chunks, [done] + inbox);
      assert handed + buffer == handed && Data(chunks) + [] == Data(chunks);
      assert ([done] + inbox)[1..] == inbox;
    }

    /** With bytes left in the buffer, the file is not what was handed out. */
    lemma MoreToCome()
      requires FramingOk() && buffer != []
      ensures TakeFile(Source()).Some? ==> TakeFile(Source()).value.data != handed
    {
      ChunksThenFile(taken, inbox);
    }

    /** A file ends without error exactly if the stream holds a whole file there, all its bytes were
        handed out, and their number is the declared one when one was declared. */
    method FinishFile(declared: int) returns (error: Option<Error>)
      requires FramingOk() && AcksOk()
      modifies this
      ensures AcksOk() && handed == old(handed) && received == old(received) && reports == old(reports)
      ensures error.None? <==>
                && TakeFile(old(Source())).Some? && TakeFile(old(Source())).value.data == handed
                && (declared < 0 || |handed| == declared)
      ensures error.None? ==> buffer == [] && inbox == TakeFile(old(Source())).value.rest && fileReceived == |handed|
    {
      while !fileDone
        invariant FramingOk() && AcksOk() && Source() == old(Source())
        invariant handed == old(handed) && received == old(received) && reports == old(reports)
        decreases |inbox|
      {
        if |buffer| > 0 {
          MoreToCome();
          return Some(Changed);
        }
        error := Receive();
        if error.Some? {
          return;
        }
      }
      WholeFile();
      if declared >= 0 && fileReceived != declared {
        return Some(Changed);
      }
      error := None;
    }

    /** A transfer of one file: reads of any sizes, in any number.  The transfer fails if a read does. */
    method Transfer(sizes: seq<nat>) returns (data: seq<Byte>, error: Option<Error>)
      requires FramingOk() && AcksOk() && handed == []
      modifies this
      ensures AcksOk()
      ensures error.None? ==> FramingOk() && Source() == old(Source()) && handed == data
      ensures error != Some(Eof)
    {
      data := [];
      for i := 0 to |sizes|
        invariant FramingOk() && AcksOk() && Source() == old(Source()) && handed == data
      {
        var part, failure := Read(sizes[i]);
        if failure == Some(Eof) {
          break;
        }
        if failure.Some? {
          return data, failure;
        }
        data := data + part;
      }
      error := None;
    }

    method SendFile(declared: int, sizes: seq<nat>) returns (data: seq<Byte>, error: Option<Error>)
      requires buffer == [] && AcksOk()
      modifies this
      ensures AcksOk()
      ensures error.None? ==> buffer == [] && TakeFile(old(inbox)) == Some(File(data, inbox))
      ensures error.None? ==> declared < 0 || |data| == declared
    {
      BeginFile();
      assert Source() == old(inbox);
      data, error := Transfer(sizes);
      if error.None? {
        error := FinishFile(declared);
      }
    }

    /** All files of a request.  If none fails, each transfer got exactly its file, whatever the reads
        were, the declared sizes hold, and the stream stands after the last end marker. */
    method SendFiles(declared: seq<int>, sizes: seq<seq<nat>>) returns (files: seq<seq<Byte>>, error: Option<Error>)
      requires |sizes| == |declared| && buffer == [] && AcksOk()
      modifies this
      ensures AcksOk()
      ensures error.None? ==> TakeFiles(old(inbox), |declared|) == Some((files, inbox))
      ensures error.None? ==> |files| == |declared| && forall i | 0 <= i < |files| :: declared[i] < 0 || |files[i]| == declared[i]
    {
      files := [];
      error := None;
      for i := 0 to |declared|
        invariant error.None? && buffer == [] && AcksOk() && |files| == i
        invariant TakeFiles(old(inbox), i) == Some((files, inbox))
        invariant forall k | 0 <= k < i :: declared[k] < 0 || |files[k]| == declared[k]
      {
        var data;
        data, error := SendFile(declared[i], sizes[i]);
        if error.Some? {
          return;
        }
        files := files + [data];
      }
    }
  }
}
