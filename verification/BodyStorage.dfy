/**
 Request-body storage: a body is kept in memory or in a temporary file, and its bytes are
 accounted in the cache counters while it lives. Readers may deliver the stream in any chunks,
 writes may be short or fail, and every failure exit must give back what was counted.
 */
module BodyStorage {
  import opened Basics

  /** The process-wide statistics of common/disk_cache_config.go. */
  class Counters {
    var usage: int
    var reserved: int
    var files: int
    var buffers: int
    var bufferBytes: int
    const enabled: bool
    const max: int
    const threshold: int

    constructor (enabled: bool, max: int, threshold: int)
      ensures usage == reserved == files == buffers == bufferBytes == 0
      ensures this.enabled == enabled && this.max == max && this.threshold == threshold
    {
      usage, reserved, files, buffers, bufferBytes := 0, 0, 0, 0, 0;
      this.enabled, this.max, this.threshold := enabled, max, threshold;
    }

    /** No counter is below zero, so no decrement below is cut off at zero. */
    ghost predicate Sane()
      reads this
    {
      0 <= usage && 0 <= reserved && 0 <= files
    }

    method Reserve(size: int) returns (ok: bool)
      modifies this`reserved
      ensures ok <==> 0 < size && enabled && usage + old(reserved) + size <= max
      ensures reserved == old(reserved) + if ok then size else 0
    {
      if size <= 0 || !enabled || usage + reserved + size > max {
        return false;
      }
      reserved := reserved + size;
      return true;
    }

    method Release(size: int)
      modifies this`reserved
      ensures reserved == if size <= 0 then old(reserved) else if old(reserved) < size then 0 else old(reserved) - size
    {
      if 0 < size {
        reserved := reserved - size;
        if reserved < 0 { reserved := 0; }
      }
    }

    method Commit(size: int)
      modifies this`usage, this`reserved
      ensures usage == old(usage) + if size <= 0 then 0 else size
      ensures reserved == if size <= 0 then old(reserved) else if old(reserved) < size then 0 else old(reserved) - size
    {
      if 0 < size {
        usage := usage + size;
        Release(size);
      }
    }

    method IncrementFiles(size: int)
      modifies this`usage, this`files
      ensures usage == old(usage) + size && files == old(files) + 1
    {
      files := files + 1;
      usage := usage + size;
    }

    method DecrementFiles(size: int)
      modifies this`usage, this`files
      ensures usage == if old(usage) < size then 0 else old(usage) - size
      ensures files == if old(files) < 1 then 0 else old(files) - 1
    {
      files := files - 1;
      if files < 0 { files := 0; }
      usage := usage - size;
      if usage < 0 { usage := 0; }
    }
  }

  /** How a stream ends: properly, or with an error. */
  datatype End = Eof | Broken

  datatype ReadError = NoError | Ended(end: End)

  /**
   A reader over `rest`. It first delivers chunks of the planned sizes (possibly empty ones),
   then as much as is asked for; the end is reported with the last bytes or after them.
   */
  class Reader {
    var rest: seq<Byte>
    var plan: seq<nat>
    const end: End
    const endWithData: bool

    constructor (rest: seq<Byte>, plan: seq<nat>, end: End, endWithData: bool)
      ensures this.rest == rest && this.plan == plan && this.end == end && this.endWithData == endWithData
    {
      this.rest, this.plan, this.end, this.endWithData := rest, plan, end, endWithData;
    }

    /** Decreases with every read. */
    ghost function Left(): nat
      reads this
    {
      |rest| + |plan|
    }

    method Read(size: nat) returns (chunk: seq<Byte>, err: ReadError)
      requires 0 < size
      modifies this`rest, this`plan
      ensures old(rest) == chunk + rest && |chunk| <= size
      ensures err.Ended? ==> err.end == end && rest == []
      ensures err.NoError? ==> Left() < old(Left())
      ensures err.Ended? && !endWithData ==> chunk == []
    {
      var n := if |rest| < size then |rest| else size;
      if plan != [] {
        n := if plan[0] < n then plan[0] else n;
        plan := plan[1..];
        err := NoError;
      } else if rest == [] || (endWithData && n == |rest|) {
        err := Ended(end);
      } else {
        err := NoError;
      }
      chunk := rest[..n];
      rest := rest[n..];
    }
  }

  /** The result of one `file.Write`: bytes written and whether an error is reported. */
  datatype WriteResult = WriteResult(n: nat, failed: bool)

  /** The directory for temporary files, with the I/O failures of one request. */
  datatype Disk = Disk(createOk: bool, seekOk: bool, writes: seq<WriteResult>) {
    predicate Faultless() { createOk && seekOk && writes == [] }
  }

  class TempFile {
    var content: seq<Byte>
    var pos: nat
    var removed: bool
    var writes: seq<WriteResult>

    constructor (writes: seq<WriteResult>)
      ensures content == [] && pos == 0 && !removed && this.writes == writes
    {
      content, pos, removed, this.writes := [], 0, false, writes;
    }

    method Write(data: seq<Byte>) returns (n: nat, failed: bool)
      modifies this`content, this`pos, this`writes
      ensures n <= |data| && content == old(content) + data[..n]
      ensures old(writes) == [] ==> n == |data| && !failed && writes == []
    {
      n, failed := |data|, false;
      if writes != [] {
        n := if writes[0].n < |data| then writes[0].n else |data|;
        failed := writes[0].failed;
        writes := writes[1..];
      }
      content, pos := content + data[..n], pos + n;
    }
  }

  class MemoryStorage {
    const data: seq<Byte>
    const size: nat
    var closed: bool
    const counters: Counters

    ghost predicate Valid() {
      size == |data|
    }

    constructor (data: seq<Byte>, counters: Counters)
      modifies counters`buffers, counters`bufferBytes
      ensures Valid() && !closed && this.data == data && this.counters == counters
      ensures counters.buffers == old(counters.buffers) + 1
      ensures counters.bufferBytes == old(counters.bufferBytes) + |data|
    {
      this.data, size, closed, this.counters := data, |data|, false, counters;
      new;
      counters.buffers := counters.buffers + 1;
      counters.bufferBytes := counters.bufferBytes + |data|;
    }

    /** The first Close gives the buffer back; later ones do nothing. */
    method Close()
      modifies this`closed, counters`buffers, counters`bufferBytes
      ensures closed
      ensures counters.buffers == old(counters.buffers) - if old(closed) then 0 else 1
      ensures counters.bufferBytes == old(counters.bufferBytes) - if old(closed) then 0 else size
    {
      if !closed {
        closed := true;
        counters.buffers := counters.buffers - 1;
        counters.bufferBytes := counters.bufferBytes - size;
      }
    }
  }

  /** The I/O of reading a file back: two seeks, the bytes the file delivers, the seek back. */
  datatype ReadBack = ReadBack(tellOk: bool, rewindOk: bool, delivered: nat, restoreOk: bool)

  datatype BytesResult = AllBytes(data: seq<Byte>) | StorageClosed | IoError

  class DiskStorage {
    const file: TempFile
    const size: nat
    var closed: bool
    const counters: Counters

    ghost predicate Valid()
      reads this, file
    {
      !closed ==> size == |file.content| && !file.removed
    }

    constructor (file: TempFile, size: nat, counters: Counters)
      requires size == |file.content| && !file.removed
      ensures Valid() && !closed && this.file == file && this.size == size && this.counters == counters
    {
      this.file, this.size, closed, this.counters := file, size, false, counters;
    }

    /** The first Close removes the file and gives its bytes back; later ones do nothing. */
    method Close()
      requires Valid()
      requires !closed ==> size <= counters.usage && 1 <= counters.files
      modifies this`closed, file`removed, counters`usage, counters`files
      ensures Valid() && closed
      ensures old(closed) ==> counters.usage == old(counters.usage) && counters.files == old(counters.files)
                              && file.removed == old(file.removed)
      ensures !old(closed) ==> counters.usage == old(counters.usage) - size
                               && counters.files == old(counters.files) - 1 && file.removed
    {
      if !closed {
        closed := true;
        file.removed := true;
        counters.DecrementFiles(size);
      }
    }

    /** The whole content; on success the cursor is where it was. */
    method Bytes(io: ReadBack) returns (r: BytesResult)
      requires Valid()
      modifies file`pos
      ensures r.AllBytes? <==> !closed && io.tellOk && io.rewindOk && io.delivered >= size && io.restoreOk
      ensures r.AllBytes? ==> r.data == file.content && |r.data| == size && file.pos == old(file.pos)
      ensures r.StorageClosed? <==> closed
      ensures file.pos == if closed || !io.tellOk || !io.rewindOk || r.AllBytes? then old(file.pos) else Min(io.delivered, size)
    {
      if closed { return StorageClosed; }
      if !io.tellOk { return IoError; }
      var current := file.pos;
      if !io.rewindOk { return IoError; }
      var data := file.content[..Min(io.delivered, size)];
      file.pos := |data|;
      if |data| < size { return IoError; }
      if !io.restoreOk { return IoError; }
      file.pos := current;
      return AllBytes(data);
    }
  }

  datatype Storage = Memory(memory: MemoryStorage) | OnDisk(disk: DiskStorage)

  datatype Result<T> = Stored(value: T) | TooLarge | Full | Failed

  /** A storage holding exactly `data`. */
  ghost predicate Holds(s: Storage, data: seq<Byte>)
    reads if s.OnDisk? then {s.disk, s.disk.file} else {s.memory}
  {
    match s
    case Memory(m) => m.Valid() && !m.closed && m.data == data
    case OnDisk(d) => d.Valid() && !d.closed && d.file.content == data && d.file.pos == 0
  }

  const BUFFER_SIZE := 64 * 1024

  function Min(a: int, b: int): int { if a < b then a else b }

  /** The bytes a bounded read looks at: one more than allowed is enough to reject. */
  function Demand(body: seq<Byte>, maxBytes: int): int { Min(|body|, maxBytes + 1) }

  method NewDiskStorage(data: seq<Byte>, c: Counters, disk: Disk) returns (r: Result<DiskStorage>)
    requires c.Sane()
    modifies c`usage, c`files, c`reserved
    ensures c.Sane() && c.reserved == old(c.reserved)
    ensures !r.Stored? ==> c.usage == old(c.usage) && c.files == old(c.files)
    ensures r.Stored? ==> fresh(r.value) && fresh(r.value.file) && r.value.counters == c && Holds(OnDisk(r.value), data)
    ensures r.Stored? ==> c.usage == old(c.usage) + |data| && c.files == old(c.files) + 1
    ensures r.Full? <==> data == [] || !c.enabled || old(c.usage) + old(c.reserved) + |data| > c.max
    ensures disk.Faultless() ==> r.Stored? || r.Full?
    ensures !r.TooLarge?
  {
    var ok := c.Reserve(|data|);
    if !ok { return Full; }
    if !disk.createOk {
      c.Release(|data|);
      return Failed;
    }
    var file := new TempFile(disk.writes);
    var n, failed := file.Write(data);
    if failed || n != |data| || !disk.seekOk {
      file.removed := true;
      c.Release(|data|);
      return Failed;
    }
    file.pos := 0;
    c.IncrementFiles(n);
    var storage := new DiskStorage(file, n, c);
    c.Release(|data|);
    return Stored(storage);
  }

  /** Removes the file and gives back what was counted for it. */
  method Cleanup(file: TempFile, written: nat, c: Counters)
    modifies file`removed, c`usage, c`files
    ensures file.removed
    ensures written <= old(c.usage) ==> c.usage == old(c.usage) - written
    ensures 1 <= old(c.files) ==> c.files == old(c.files) - 1
  {
    file.removed := true;
    c.DecrementFiles(written);
  }

  /** Copies one chunk into the file under a reservation; `done` stops the copy. */
  method StoreChunk(file: TempFile, chunk: seq<Byte>, c: Counters)
    returns (done: Result<()>, now: nat)
    requires chunk != [] && c.Sane()
    modifies file`content, file`pos, file`writes, c`usage, c`reserved
    ensures c.Sane() && c.reserved == old(c.reserved)
    ensures now <= |chunk| && c.usage == old(c.usage) + now && file.content == old(file.content) + chunk[..now]
    ensures done.Stored? ==> now == |chunk|
    ensures done.Full? <==> !c.enabled || old(c.usage) + c.reserved + |chunk| > c.max
    ensures done.Full? ==> now == 0
    ensures old(file.writes) == [] ==> file.writes == [] && (done.Stored? || done.Full?)
    ensures !done.TooLarge?
  {
    var ok := c.Reserve(|chunk|);
    if !ok {
      assert chunk[..0] == [];
      return Full, 0;
    }
    var failed;
    now, failed := file.Write(chunk);
    c.Commit(now);
    if now < |chunk| {
      c.Release(|chunk| - now);
      return Failed, now;
    }
    if failed { return Failed, now; }
    return Stored(()), now;
  }

  /** Reads at most a buffer, and no more than `limit` bytes, and stores what was read. */
  method CopyChunk(file: TempFile, reader: Reader, limit: int, c: Counters) returns (done: Result<()>, now: nat, err: ReadError)
    requires c.Sane() && 0 < limit
    modifies reader`rest, reader`plan, file`content, file`pos, file`writes, c`usage, c`reserved
    ensures c.Sane() && c.reserved == old(c.reserved) && c.usage == old(c.usage) + now
    ensures done.Stored? ==>
      && file.content + reader.rest == old(file.content) + old(reader.rest)
      && |file.content| == |old(file.content)| + now && now <= limit
      && (0 < now ==> c.enabled && c.usage + c.reserved <= c.max)
    ensures err.Ended? ==> err.end == reader.end && reader.rest == []
    ensures err.NoError? ==> reader.Left() < old(reader.Left())
    ensures done.Full? ==>
      && old(reader.rest) != []
      && (!c.enabled || old(c.usage) + c.reserved + Min(|old(reader.rest)|, limit) > c.max)
    ensures !done.TooLarge? && (old(file.writes) == [] ==> file.writes == [] && !done.Failed?)
  {
    var chunk;
    chunk, err := reader.Read(Min(BUFFER_SIZE, limit));
    done, now := Stored(()), 0;
    if chunk != [] {
      done, now := StoreChunk(file, chunk, c);
    }
  }

  /** The copy loop: `written` bytes are in the file and counted, however the loop ends. */
  method CopyStream(file: TempFile, reader: Reader, maxBytes: int, c: Counters) returns (done: Result<()>, written: nat)
    requires c.Sane() && 0 < maxBytes && file.content == []
    modifies reader`rest, reader`plan, file`content, file`pos, file`writes, c`usage, c`reserved
    ensures c.Sane() && c.reserved == old(c.reserved)
    ensures c.usage == old(c.usage) + written
    ensures done.Stored? ==> file.content == old(reader.rest) && written == |file.content| <= maxBytes && reader.end == Eof
    ensures done.TooLarge? ==> |old(reader.rest)| > maxBytes
    ensures old(file.writes) == [] && reader.end == Eof ==> Verdict(done, old(reader.rest), maxBytes, c, old(c.usage), c.reserved)
  {
    written, done := 0, Failed;
    ghost var body := reader.rest;
    while true
      invariant c.Sane() && c.reserved == old(c.reserved) && c.usage == old(c.usage) + written
      invariant written == |file.content| <= maxBytes && body == file.content + reader.rest
      invariant old(file.writes) == [] ==> file.writes == []
      invariant 0 < written ==> c.enabled && c.usage + c.reserved <= c.max
      decreases reader.Left()
    {
      var now, err;
      done, now, err := CopyChunk(file, reader, maxBytes - written + 1, c);
      written := written + now;
      if !done.Stored? { return; }
      if written > maxBytes { return TooLarge, written; }
      if err == Ended(Eof) { return Stored(()), written; }
      if err.Ended? { return Failed, written; }
    }
  }

  /** How a copy without disk faults ends, as a matter of the body and the free capacity alone. */
  ghost predicate Verdict(done: Result<()>, body: seq<Byte>, maxBytes: int, c: Counters, usage: int, reserved: int)
    reads c
  {
    var demand := Demand(body, maxBytes);
    && (done.Full? <==> 0 < demand && (!c.enabled || usage + reserved + demand > c.max))
    && (done.TooLarge? <==> !done.Full? && |body| > maxBytes)
    && !done.Failed?
  }

  /**
   Streams a body of unknown length to disk.
   On failure the counters are as before; on success exactly the stored size is added and the
   file holds the whole stream. Without I/O faults the verdict is decided by the body alone.
   */
  method NewDiskStorageFromReader(reader: Reader, maxBytes: int, c: Counters, disk: Disk)
    returns (r: Result<DiskStorage>)
    requires c.Sane()
    modifies reader`rest, reader`plan, c`usage, c`files, c`reserved
    ensures c.Sane() && c.reserved == old(c.reserved)
    ensures !r.Stored? ==> c.usage == old(c.usage) && c.files == old(c.files)
    ensures r.Stored? ==>
      && fresh(r.value) && fresh(r.value.file) && r.value.counters == c
      && Holds(OnDisk(r.value), old(reader.rest)) && r.value.size <= maxBytes && reader.end == Eof
      && c.usage == old(c.usage) + r.value.size && c.files == old(c.files) + 1
    ensures r.TooLarge? ==> maxBytes <= 0 || |old(reader.rest)| > maxBytes
    ensures 0 < maxBytes && disk.Faultless() && reader.end == Eof ==>
      var demand := Demand(old(reader.rest), maxBytes);
      && (r.Full? <==> 0 < demand && (!c.enabled || old(c.usage) + old(c.reserved) + demand > c.max))
      && (r.TooLarge? <==> !r.Full? && |old(reader.rest)| > maxBytes)
      && !r.Failed?
  {
    if maxBytes <= 0 { return TooLarge; }
    if !disk.createOk { return Failed; }
    var file := new TempFile(disk.writes);
    c.IncrementFiles(0);
    var copied, written := CopyStream(file, reader, maxBytes, c);
    if !copied.Stored? || !disk.seekOk {
      Cleanup(file, written, c);
      return if copied.TooLarge? then TooLarge else if copied.Full? then Full else Failed;
    }
    file.pos := 0;
    var storage := new DiskStorage(file, written, c);
    return Stored(storage);
  }

  /** `io.ReadAll(io.LimitReader(reader, limit))`. */
  method ReadAllLimited(reader: Reader, limit: int) returns (data: seq<Byte>, ok: bool)
    modifies reader`rest, reader`plan
    ensures old(reader.rest) == data + reader.rest
    ensures reader.end == Eof ==> ok
    ensures ok ==> |data| == Min(|old(reader.rest)|, if limit < 0 then 0 else limit)
  {
    data := [];
    while |data| < limit
      invariant old(reader.rest) == data + reader.rest
      invariant |data| <= if limit < 0 then 0 else limit
      decreases reader.Left()
    {
      var chunk, err := reader.Read(limit - |data|);
      data := data + chunk;
      if err == Ended(Eof) { return data, true; }
      if err.Ended? { return data, false; }
    }
    return data, true;
  }

  method CreateBodyStorage(data: seq<Byte>, c: Counters, disk: Disk) returns (r: Result<Storage>)
    requires c.Sane()
    modifies c
    ensures c.Sane() && c.reserved == old(c.reserved)
    ensures r.Stored? ==> Holds(r.value, data) && fresh(if r.value.OnDisk? then {r.value.disk, r.value.disk.file} else {r.value.memory})
    ensures !r.Stored? ==> c.usage == old(c.usage) && c.files == old(c.files) && c.buffers == old(c.buffers)
    ensures r.Stored? && r.value.OnDisk? ==> c.usage == old(c.usage) + |data| && c.buffers == old(c.buffers)
    ensures r.Stored? && r.value.Memory? ==> c.usage == old(c.usage) && c.buffers == old(c.buffers) + 1
    ensures var useDisk := c.enabled && |data| >= c.threshold;
      && (r.Stored? ==> (r.value.OnDisk? <==> useDisk))
      && (r.Full? <==> useDisk && (data == [] || old(c.usage) + old(c.reserved) + |data| > c.max))
      && (!useDisk || disk.Faultless() ==> r.Stored? || r.Full?)
      && !r.TooLarge?
  {
    if c.enabled && |data| >= c.threshold {
      var d := NewDiskStorage(data, c, disk);
      if !d.Stored? { return if d.Full? then Full else Failed; }
      return Stored(OnDisk(d.value));
    }
    var m := new MemoryStorage(data, c);
    return Stored(Memory(m));
  }

  /**
   Whichever route is taken, a stored body is the whole stream, and for a stream that ends
   properly, a positive limit, no disk fault and room for the bytes, the outcome is the same on
   both: too large exactly when the stream is longer than the limit, otherwise stored.
   */
  method CreateBodyStorageFromReader(reader: Reader, contentLength: int, maxBytes: int, c: Counters, disk: Disk)
    returns (r: Result<Storage>)
    requires c.Sane()
    modifies reader`rest, reader`plan, c
    ensures c.Sane() && c.reserved == old(c.reserved)
    ensures !r.Stored? ==> c.usage == old(c.usage) && c.files == old(c.files) && c.buffers == old(c.buffers)
    ensures r.Stored? ==> Holds(r.value, old(reader.rest)) && |old(reader.rest)| <= maxBytes
    // on disk exactly when it is on and the announced or the real length asks for it
    ensures r.Stored? ==>
      (r.value.OnDisk? <==> c.enabled && (contentLength <= 0 || contentLength >= c.threshold || |old(reader.rest)| >= c.threshold))
    ensures 0 < maxBytes && reader.end == Eof && disk.Faultless()
            && old(c.usage) + old(c.reserved) + Demand(old(reader.rest), maxBytes) <= c.max ==>
      && (r.TooLarge? <==> |old(reader.rest)| > maxBytes)
      && (r.Stored? <==> |old(reader.rest)| <= maxBytes)
  {
    if c.enabled && (contentLength <= 0 || contentLength >= c.threshold) {
      var d := NewDiskStorageFromReader(reader, maxBytes, c, disk);
      match d
      case Stored(storage) => return Stored(OnDisk(storage));
      case TooLarge => return TooLarge;
      case _ => return Failed;
    }
    var data, ok := ReadAllLimited(reader, maxBytes + 1);
    if !ok { return Failed; }
    if |data| > maxBytes { return TooLarge; }
    assert reader.rest == [] && data == old(reader.rest);
    r := CreateBodyStorage(data, c, disk);
  }
}
