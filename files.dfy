/** `write_to_file` of `src/pictures.rs`: create a file and write one buffer
    into it through a `BufWriter`. The operating system is an oracle: file
    creation, and a single write that accepts some prefix of the bytes
    offered or fails. */
module Files {
  import opened Wrappers

  newtype byte = b: int | 0 <= b < 256

  /** A path as its components; `PathBuf::join` appends one. */
  type Path = seq<string>

  /** `create` is `File::create`; `write(path, data)` offers `data` at the
      end of the file and tells how many bytes were accepted. */
  datatype FileSystem = FileSystem(
    create: Path -> Result<(), string>,
    write: (Path, seq<byte>) -> Result<nat, string>)

  /** The outcome reported to the caller, and the bytes the file holds
      afterwards (`None`: the file could not be created). */
  datatype FileWrite = FileWrite(result: Result<(), string>, stored: Option<seq<byte>>)

  /** The capacity of a `BufWriter::new` buffer. */
  const BufferCapacity: nat := 8192

  /** The error of `write_all` when a write accepts no bytes. */
  const WriteZero: string := "failed to write whole buffer"

  /** The error of a `BufWriter` flush when a write accepts no bytes. */
  const FlushZero: string := "failed to write the buffered data"

  /** A write cannot accept more bytes than it was offered. */
  function Accepted(n: nat, data: seq<byte>): (k: nat)
    ensures k <= |data| && (n <= |data| ==> k == n)
  {
    if n < |data| then n else |data|
  }

  /** The bytes that reached the file, and the error that stopped the
      writing, if any. */
  datatype Drained = Drained(stored: seq<byte>, error: Option<string>)

  /** Offering `data` until all of it is accepted, a write accepts nothing
      (`zeroError`) or a write fails: the loop of `write_all`, and of the
      flush of a `BufWriter`. It stops without error exactly when the whole
      of `data` reached the file. */
  function Drain(fs: FileSystem, path: Path, data: seq<byte>, zeroError: string): (d: Drained)
    ensures d.stored <= data
    ensures d.error.None? <==> d.stored == data
    decreases |data|
  {
    if data == [] then Drained([], None)
    else
      match fs.write(path, data)
      case Failure(e) => Drained([], Some(e))
      case Success(n) =>
        if n == 0 then Drained([], Some(zeroError))
        else
          var k := Accepted(n, data);
          var rest := Drain(fs, path, data[k..], zeroError);
          assert data == data[..k] + data[k..];
          Drained(data[..k] + rest.stored, rest.error)
  }

  /** `write_to_file` as written: `writer.write(buf)?` on a fresh
      `BufWriter`. A buffer smaller than the capacity is only copied into
      the writer and reaches the file when the writer is dropped, with the
      flush error discarded; a larger one goes to the file in one write
      whose count is ignored. */
  function WriteToFileAsWritten(buf: seq<byte>, path: Path, fs: FileSystem): (w: FileWrite)
    ensures fs.create(path).Failure? ==> w == FileWrite(Failure(fs.create(path).error), None)
    ensures fs.create(path).Success? ==> w.stored.Some? && w.stored.value <= buf
    ensures |buf| < BufferCapacity ==> (w.result.Success? <==> fs.create(path).Success?)
  {
    match fs.create(path)
    case Failure(e) => FileWrite(Failure(e), None)
    case Success(_) =>
      if |buf| < BufferCapacity then FileWrite(Success(()), Some(Drain(fs, path, buf, FlushZero).stored))
      else
        match fs.write(path, buf)
        case Failure(e) => FileWrite(Failure(e), Some([]))
        case Success(n) => FileWrite(Success(()), Some(buf[..Accepted(n, buf)]))
  }

  /** A file system on which files can be created but every write fails. */
  const FullDisk: FileSystem := FileSystem(p => Success(()), (p, d) => Failure("No space left on device"))

  /** As written, a small buffer whose write fails is still reported as
      written: the file stays empty and the result is `Ok(())`. */
  lemma AsWrittenLosesSmallBuffer()
    ensures WriteToFileAsWritten([1, 2, 3], ["out", "40", "n"], FullDisk) == FileWrite(Success(()), Some([]))
  {
  }

  /** As written, a large buffer of which the system accepts only one byte
      is reported as written although the file holds one byte. */
  lemma AsWrittenTruncatesLargeBuffer(buf: seq<byte>)
    requires |buf| == BufferCapacity
    ensures var fs := FileSystem(p => Success(()), (p, d) => Success(1));
      var w := WriteToFileAsWritten(buf, ["out", "raw", "n"], fs);
      w.result.Success? && w.stored == Some(buf[..1]) && w.stored != Some(buf)
  {
  }

  /** A file system on which every file can be created and every write
      accepts all it is offered. */
  ghost predicate Healthy(fs: FileSystem) {
    && (forall p: Path :: fs.create(p).Success?)
    && (forall p: Path, d: seq<byte> :: fs.write(p, d) == Success(|d|))
  }

  /** When every write accepts all it is offered, all the data reaches the
      file without error. */
  lemma DrainAll(fs: FileSystem, path: Path, data: seq<byte>, zeroError: string)
    requires forall d: seq<byte> :: fs.write(path, d) == Success(|d|)
    ensures Drain(fs, path, data, zeroError) == Drained(data, None)
  {
  }

  /** When every write accepts everything it is offered, the code as written
      does store the whole buffer. */
  lemma AsWrittenStoresWhenAllAccepted(buf: seq<byte>, path: Path, fs: FileSystem)
    requires fs.create(path).Success?
    requires forall d: seq<byte> :: fs.write(path, d) == Success(|d|)
    ensures WriteToFileAsWritten(buf, path, fs) == FileWrite(Success(()), Some(buf))
  {
    if |buf| < BufferCapacity {
      DrainAll(fs, path, buf, FlushZero);
    } else {
      assert buf[..Accepted(|buf|, buf)] == buf;
    }
  }

  /** `write_to_file` as intended: create the file, then write until the
      whole buffer is accepted (`write_all`), reporting every failure. It
      succeeds exactly when the file holds the whole buffer. */
  function WriteAll(buf: seq<byte>, path: Path, fs: FileSystem): (w: FileWrite)
    ensures fs.create(path).Failure? ==> w == FileWrite(Failure(fs.create(path).error), None)
    ensures fs.create(path).Success? ==> w.stored.Some? && w.stored.value <= buf
    ensures w.result.Success? <==> w.stored == Some(buf)
  {
    match fs.create(path)
    case Failure(e) => FileWrite(Failure(e), None)
    case Success(_) =>
      var d := Drain(fs, path, buf, WriteZero);
      FileWrite(if d.error.None? then Success(()) else Failure(d.error.value), Some(d.stored))
  }

  /** On a healthy file system the intended write stores the whole buffer. */
  lemma WriteAllOnHealthy(buf: seq<byte>, path: Path, fs: FileSystem)
    requires Healthy(fs)
    ensures WriteAll(buf, path, fs) == FileWrite(Success(()), Some(buf))
  {
  }

  /** One accepted write moves `k` bytes from what is left to what is
      stored, and leaves the outcome of the rest unchanged. */
  lemma DrainAdvances(fs: FileSystem, path: Path, buf: seq<byte>, written: nat, k: nat, zeroError: string)
    requires written < |buf|
    requires fs.write(path, buf[written..]).Success? && fs.write(path, buf[written..]).value > 0
    requires k == Accepted(fs.write(path, buf[written..]).value, buf[written..])
    ensures var here, rest := Drain(fs, path, buf[written..], zeroError), Drain(fs, path, buf[written + k..], zeroError);
      buf[..written] + here.stored == buf[..written + k] + rest.stored && here.error == rest.error
  {
  }

  /** The corrected `write_to_file` as a loop: the loop of `write_all`,
      offering the rest of the buffer after each partial write. */
  method WriteAllLoop(buf: seq<byte>, path: Path, fs: FileSystem) returns (w: FileWrite)
    ensures w == WriteAll(buf, path, fs)
  {
    var created := fs.create(path);
    if created.Failure? {
      return FileWrite(Failure(created.error), None);
    }
    var written: nat := 0;
    assert buf[written..] == buf;
    while written < |buf|
      invariant written <= |buf|
      invariant var rest := Drain(fs, path, buf[written..], WriteZero);
        Drain(fs, path, buf, WriteZero) == Drained(buf[..written] + rest.stored, rest.error)
      decreases |buf| - written
    {
      var data := buf[written..];
      var accepted := fs.write(path, data);
      if accepted.Failure? || accepted.value == 0 {
        var error := if accepted.Failure? then accepted.error else WriteZero;
        assert Drain(fs, path, data, WriteZero) == Drained([], Some(error));
        assert buf[..written] + [] == buf[..written];
        return FileWrite(Failure(error), Some(buf[..written]));
      }
      var k := Accepted(accepted.value, data);
      DrainAdvances(fs, path, buf, written, k, WriteZero);
      written := written + k;
    }
    assert buf[written..] == [] && buf[..written] == buf;
    w := FileWrite(Success(()), Some(buf));
  }
}
