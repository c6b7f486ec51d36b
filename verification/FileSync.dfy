/** The file sync service: a file travels as DATA messages closed by DONE; the receiver drains the whole
    transfer even after a failure, and answers with one status. */
module FileSync {
  import opened Bytes
  import opened Streams

  const SYNC_DATA_MAX := 65536
  const ID_DATA: Word := 0x41544144
  const ID_DONE: Word := 0x454e4f44
  const ID_OKAY: Word := 0x59414b4f
  const ID_FAIL: Word := 0x4c494146

  // ---------- messages ----------

  function Message(id: Word, size: Word): (b: Bytes)
    ensures |b| == 8
  {
    PutWord(id) + PutWord(size)
  }

  datatype Status = Okay | Fail(reason: Bytes)

  function StatusBytes(st: Status): Bytes
    requires st.Fail? ==> |st.reason| < TWO32
  {
    match st
    case Okay => Message(ID_OKAY, 0)
    case Fail(reason) => Message(ID_FAIL, |reason|) + reason
  }

  /** What a stream uploads: the contents and the time stamp, and what follows DONE. */
  datatype Upload = Done(data: Bytes, time: Word, rest: Bytes) | Broken

  function ReadUpload(s: Bytes): (u: Upload)
    decreases |s|
  {
    if |s| < 8 then Broken
    else
      var id, size := GetWord(s[..4]), GetWord(s[4..8]);
      if id == ID_DONE then Done([], size, s[8..])
      else if id != ID_DATA || size > SYNC_DATA_MAX || |s| < 8 + size then Broken
      else Behind(s[8..8 + size], ReadUpload(s[8 + size..]))
  }

  function Behind(data: Bytes, u: Upload): Upload {
    match u case Broken => Broken case Done(more, time, rest) => Done(data + more, time, rest)
  }

  /** The DATA messages of some pieces of a file. */
  function DataMessages(chunks: seq<Bytes>): Bytes
    requires Blocks(chunks)
  {
    if chunks == [] then [] else Message(ID_DATA, |chunks[0]|) + chunks[0] + DataMessages(chunks[1..])
  }

  ghost predicate Blocks(chunks: seq<Bytes>) {
    forall i :: 0 <= i < |chunks| ==> |chunks[i]| <= SYNC_DATA_MAX
  }

  lemma MessageWords(id: Word, size: Word, tail: Bytes)
    ensures GetWord((Message(id, size) + tail)[..4]) == id
    ensures GetWord((Message(id, size) + tail)[4..8]) == size
  {
    hide PutWord, GetWord;
    var s := Message(id, size) + tail;
    assert s[..4] == PutWord(id) && s[4..8] == PutWord(size);
    GetPut(id);
    GetPut(size);
  }

  /** Any way of cutting a file into DATA messages uploads that file. */
  lemma {:induction false} UploadRoundTrip(chunks: seq<Bytes>, time: Word, rest: Bytes)
    requires Blocks(chunks)
    ensures ReadUpload(DataMessages(chunks) + Message(ID_DONE, time) + rest) == Done(Concat(chunks), time, rest)
  {
    hide Message, GetWord, PutWord;
    var s := DataMessages(chunks) + Message(ID_DONE, time) + rest;
    if chunks == [] {
      assert s == Message(ID_DONE, time) + rest;
      MessageWords(ID_DONE, time, rest);
      assert s[8..] == rest;
    } else {
      var c := chunks[0];
      var tail := DataMessages(chunks[1..]) + Message(ID_DONE, time) + rest;
      assert s == Message(ID_DATA, |c|) + (c + tail);
      MessageWords(ID_DATA, |c|, c + tail);
      assert s[8..8 + |c|] == c && s[8 + |c|..] == tail;
      UploadRoundTrip(chunks[1..], time, rest);
    }
  }

  /** On the wire the message ids spell their names. */
  lemma IdsSpellNames()
    ensures PutWord(ID_DATA) == Text("DATA") && PutWord(ID_DONE) == Text("DONE")
    ensures PutWord(ID_OKAY) == Text("OKAY") && PutWord(ID_FAIL) == Text("FAIL")
  {
  }

  // ---------- the file ----------

  /** A file of contents `base` after `data` was written from its start. */
  function Overlay(base: Bytes, data: Bytes): (r: Bytes)
    ensures data <= r
  {
    if |data| >= |base| then data else data + base[|data|..]
  }

  /** An existing file is opened without truncation: it ends up as the uploaded data exactly when it was
      no longer than that. */
  lemma OverlayIsExact(base: Bytes, data: Bytes)
    ensures Overlay(base, data) == data <==> |base| <= |data|
    ensures |Overlay(base, data)| == if |base| <= |data| then |data| else |base|
  {
  }

  datatype Errno = Fine | NoEnt | Exist | Other

  /** The path being uploaded to.  On a healthy one no system call fails without need; on a removable one
      unlink works in any case. */
  class Path {
    var file: Option<Bytes>
    var parents: bool
    var healthy: bool
    var time: Word
    const removable: bool

    constructor (f: Option<Bytes>, dirs: bool, ok: bool, unlinks: bool)
      ensures file == f && parents == dirs && healthy == ok && removable == unlinks
    {
      file, parents, healthy, time, removable := f, dirs, ok, 0, unlinks;
    }

    /** open with O_CREAT|O_EXCL. */
    method OpenNew() returns (e: Errno)
      modifies this`file
      ensures healthy ==> e == if file != old(file) then Fine else if old(file).Some? then Exist else NoEnt
      ensures healthy && old(file).None? && parents ==> e == Fine
      ensures e == Fine ==> old(file) == None && file == Some([])
      ensures e != Fine ==> file == old(file)
      ensures e == Exist ==> file.Some?
    {
      var broken: bool := *;
      if broken && !healthy { return Other; }
      if file.Some? { return Exist; }
      if !parents { return NoEnt; }
      file := Some([]);
      e := Fine;
    }

    method MakeParents()
      modifies this`parents
      ensures healthy ==> parents
    {
      var broken: bool := *;
      if !(broken && !healthy) { parents := true; }
    }

    /** open of an existing file, without O_TRUNC. */
    method OpenOld() returns (e: Errno)
      ensures e == Fine ==> file.Some?
      ensures healthy && file.Some? ==> e == Fine
    {
      var broken: bool := *;
      if broken && !healthy { return Other; }
      e := if file.Some? then Fine else NoEnt;
    }

    method Unlink()
      modifies this`file
      ensures file == None || (!healthy && !removable && file == old(file))
    {
      var broken: bool := *;
      if !(broken && !healthy && !removable) { file := None; }
    }

    /** What was written through fd is in the file when it is closed. */
    method Close(fd: Fd, base: Bytes)
      requires file == Some(base)
      modifies this`file
      ensures file == Some(Overlay(base, fd.output))
    {
      file := Some(Overlay(base, fd.output));
    }

    /** The three attempts of handle_send_file. */
    method Open() returns (fd: Fd?, base: Bytes)
      modifies this`file, this`parents
      ensures fd != null ==> fresh(fd) && fd.output == [] && fd.healthy == healthy && file == Some(base)
      ensures fd != null ==> base == if old(file).Some? then old(file).value else []
      ensures fd == null ==> !healthy && file == old(file)
    {
      var e := OpenNew();
      if e == NoEnt {
        MakeParents();
        e := OpenNew();
      }
      if e == Exist { e := OpenOld(); }
      if e != Fine { return null, []; }
      base := file.value;
      fd := new Fd([], healthy);
    }
  }

  // ---------- the receiver ----------

  /** fail_message. */
  method FailMessage(s: Fd, reason: Bytes) returns (ok: bool)
    requires |reason| < TWO32
    modifies s`output
    ensures ok ==> s.output == old(s.output) + StatusBytes(Fail(reason))
    ensures s.healthy ==> ok
  {
    ok := Writex(s, Message(ID_FAIL, |reason|));
    if ok { ok := Writex(s, reason); }
  }

  function Text(t: string): (b: Bytes)
    ensures |b| == |t|
  {
    seq(|t|, i requires 0 <= i < |t| => t[i] as int % 256)
  }

  method Strerror() returns (reason: Bytes)
    ensures |reason| < TWO32
  {
    reason := *;
    if |reason| >= TWO32 { reason := []; }
  }

  ghost function Before(f: Option<Bytes>): Bytes { if f.Some? then f.value else [] }

  lemma BehindTwice(a: Bytes, b: Bytes, u: Upload)
    ensures Behind(a, Behind(b, u)) == Behind(a + b, u)
  {
    if u.Done? { assert a + (b + u.data) == a + b + u.data; }
  }

  lemma BehindEnd(data: Bytes, time: Word, rest: Bytes)
    ensures Behind(data, Done([], time, rest)) == Done(data, time, rest) && Behind(data, Broken) == Broken
  {
  }

  lemma BehindIsBroken(data: Bytes, u: Upload)
    ensures Behind([], u) == u && (Behind(data, u).Done? <==> u.Done?)
  {
  }

  /** One message of the transfer. */
  datatype Item = Data(bytes: Bytes) | End(time: Word) | Invalid | Oversize | Cut

  /** The part of the loop that reads one message. */
  method ReadItem(s: Fd) returns (item: Item)
    modifies s`input
    ensures item.Data? ==> |s.input| < |old(s.input)|
    ensures item.Data? ==> ReadUpload(old(s.input)) == Behind(item.bytes, ReadUpload(s.input))
    ensures item.End? ==> ReadUpload(old(s.input)) == Done([], item.time, s.input)
    ensures item.Invalid? || item.Oversize? || (s.healthy && item.Cut?) ==> ReadUpload(old(s.input)) == Broken
  {
    hide GetWord;
    ghost var was := s.input;
    var ok, h := Readx(s, 8);
    if !ok { return Cut; }
    assert was[..4] == h[..4] && was[4..8] == h[4..8];
    var id, size := GetWord(h[..4]), GetWord(h[4..8]);
    if id != ID_DATA { return if id == ID_DONE then End(size) else Invalid; }
    if size > SYNC_DATA_MAX { return Oversize; }
    var ok1, data := Readx(s, size);
    if !ok1 { return Cut; }
    assert was[8..8 + size] == data && was[8 + size..] == s.input;
    item := Data(data);
  }

  /** A block goes to the file; if it cannot be written the file is removed and the client told. */
  method Store(fd: Fd, base: Bytes, data: Bytes, s: Fd, path: Path)
    returns (open: bool, told: bool, ghost status: Status)
    requires fd != s && path.file == Some(base)
    modifies fd`output, s`output, path`file
    ensures open ==> fd.output == old(fd.output) + data && s.output == old(s.output) && path.file == Some(base)
    ensures !open ==> !fd.healthy && (s.healthy ==> told)
    ensures !open && path.removable ==> path.file == None
    ensures !open && told ==> status.Fail? && |status.reason| < TWO32 && s.output == old(s.output) + StatusBytes(status)
  {
    hide StatusBytes, Overlay;
    open, told, status := true, true, Okay;
    var ok := Writex(fd, data);
    if !ok {
      path.Close(fd, base);
      path.Unlink();
      var reason := Strerror();
      told := FailMessage(s, reason);
      return false, told, Fail(reason);
    }
  }

  /** After DONE: the file is closed and stamped, and the client told. */
  method Finish(fd: Fd, base: Bytes, time: Word, s: Fd, path: Path) returns (ok: bool)
    requires path.file == Some(base)
    modifies s`output, path`file, path`time
    ensures path.file == Some(Overlay(base, old(fd.output))) && path.time == time
    ensures ok ==> s.output == old(s.output) + StatusBytes(Okay)
    ensures s.healthy ==> ok
  {
    path.Close(fd, base);
    path.time := time;
    ok := Writex(s, Message(ID_OKAY, 0));
  }

  /** A broken transfer: the client is told why if it can be, and the path is removed, even a file that
      could not be opened. */
  method Abandon(item: Item, fd: Fd?, base: Bytes, s: Fd, path: Path)
    requires fd != null ==> path.file == Some(base)
    modifies s`output, path`file
    ensures path.healthy || path.removable ==> path.file == None
  {
    if item.Invalid? {
      var sent := FailMessage(s, Text("invalid data message"));
    } else if item.Oversize? {
      var sent := FailMessage(s, Text("oversize data message"));
    }
    if fd != null { path.Close(fd, base); }
    path.Unlink();
  }

  /** handle_send_file.  It returns 0 only after reading exactly through DONE and sending exactly one
      status, and on a healthy connection it does so for every complete upload, whatever happens to the
      file. */
  method HandleSendFile(s: Fd, path: Path) returns (r: int, ghost status: Status)
    modifies s, path
    ensures r == 0 || r == -1
    ensures r == 0 ==> ReadUpload(old(s.input)).Done? && s.input == ReadUpload(old(s.input)).rest
    ensures r == 0 ==> (status.Fail? ==> |status.reason| < TWO32) && s.output == old(s.output) + StatusBytes(status)
    ensures r == 0 && status.Okay? ==>
      path.file == Some(Overlay(Before(old(path.file)), ReadUpload(old(s.input)).data))
    ensures r == 0 && status.Okay? ==>
      var data := ReadUpload(old(s.input)).data;
      path.file == Some(data) <==> |Before(old(path.file))| <= |data|
    ensures r == 0 && status.Okay? ==> path.time == ReadUpload(old(s.input)).time
    ensures r == 0 && old(path.healthy) ==> status.Okay?
    ensures r == 0 && status.Fail? && path.removable ==> path.file == None || path.file == old(path.file)
    ensures old(s.healthy) ==> (r == 0 <==> ReadUpload(old(s.input)).Done?)
    ensures r == -1 && old(s.healthy) && old(path.healthy) ==> path.file == None
  {
    hide ReadUpload, StatusBytes, Overlay, Behind;
    BehindIsBroken([], ReadUpload(s.input));
    var fd, base := path.Open();
    ghost var got: Bytes := [];
    status := Okay;
    if fd == null {
      var reason := Strerror();
      var ok := FailMessage(s, reason);
      if !ok { return -1, status; }
      status := Fail(reason);
    }
    while true
      invariant s.healthy == old(s.healthy) && path.healthy == old(path.healthy)
      invariant ReadUpload(old(s.input)) == Behind(got, ReadUpload(s.input))
      invariant fd != null ==> fresh(fd) && fd.output == got && fd.healthy == path.healthy && s.output == old(s.output)
      invariant fd != null ==> path.file == Some(base) && base == Before(old(path.file)) && status.Okay?
      invariant fd == null && path.removable ==> path.file == None || path.file == old(path.file)
      invariant fd == null ==> !path.healthy && status.Fail? && |status.reason| < TWO32
      invariant fd == null ==> s.output == old(s.output) + StatusBytes(status)
      decreases |s.input|
    {
      BehindIsBroken(got, ReadUpload(s.input));
      var item := ReadItem(s);
      if item.Data? {
        BehindTwice(got, item.bytes, ReadUpload(s.input));
        got := got + item.bytes;
        if fd == null { continue; }
        var open, told, st := Store(fd, base, item.bytes, s, path);
        if !open {
          fd := null;
          if !told { return -1, status; }
          status := st;
        }
      } else if item.End? {
        BehindEnd(got, item.time, s.input);
        if fd != null {
          OverlayIsExact(base, got);
          var ok := Finish(fd, base, item.time, s, path);
          if !ok { return -1, status; }
        }
        return 0, status;
      } else {
        Abandon(item, fd, base, s, path);
        return -1, status;
      }
    }
  }

  /** An upload of one byte over a file of three leaves the tail of the old file. */
  method UploadOverLongerFile() returns (file: Option<Bytes>)
    ensures file == Some([9, 2, 3])
  {
    hide ReadUpload, Message, StatusBytes;
    var stream := DataMessages([[9]]) + Message(ID_DONE, 0);
    UploadRoundTrip([[9]], 0, []);
    assert stream + [] == stream && Concat([[9]]) == [9];
    assert Overlay([1, 2, 3], [9]) == [9, 2, 3];
    var s := new Fd(stream, true);
    var path := new Path(Some([1, 2, 3]), true, true, true);
    ghost var status;
    var r;
    r, status := HandleSendFile(s, path);
    file := path.file;
  }

  lemma OkayBytes()
    ensures StatusBytes(Okay) == Message(ID_OKAY, 0)
  {
  }

  /** do_send for a regular file: the old file is removed first. */
  method DoSend(s: Fd, path: Path) returns (r: int, ghost status: Status)
    modifies s, path
    ensures r == 0 ==> ReadUpload(old(s.input)).Done? && s.input == ReadUpload(old(s.input)).rest
    ensures r == 0 ==> (status.Fail? ==> |status.reason| < TWO32) && s.output == old(s.output) + StatusBytes(status)
    ensures r == 0 && old(path.healthy) ==> status.Okay? && path.file == Some(ReadUpload(old(s.input)).data)
    ensures old(s.healthy) ==> (r == 0 <==> ReadUpload(old(s.input)).Done?)
  {
    hide ReadUpload, StatusBytes;
    path.Unlink();
    r, status := HandleSendFile(s, path);
  }

  // ---------- the sender ----------

  /** do_recv.  A result of 0 means that the client got the whole file, as DATA messages closed by DONE, or
      that a FAIL closes whatever part of it was sent. */
  method DoRecv(file: Fd?, s: Fd) returns (r: int, ghost chunks: seq<Bytes>, ghost failure: Option<Bytes>)
    requires file != s
    modifies s`output, (if file == null then {} else {file})`input
    ensures r == 0 || r == -1
    ensures Blocks(chunks) && (failure.Some? ==> |failure.value| < TWO32)
    ensures r == 0 ==>
      s.output == old(s.output) + DataMessages(chunks) +
                  (if failure.Some? then StatusBytes(Fail(failure.value)) else Message(ID_DONE, 0))
    ensures r == 0 && failure.None? ==> file != null && Concat(chunks) == old(file.input)
    ensures r == 0 && failure.Some? && file != null ==> Concat(chunks) <= old(file.input)
    ensures s.healthy ==> r == 0
    ensures file != null && file.healthy ==> failure.None?
  {
    hide StatusBytes, Message;
    chunks, failure := [], None;
    if file == null {
      var reason := Strerror();
      var ok := FailMessage(s, reason);
      failure := Some(reason);
      return if ok then 0 else -1, chunks, failure;
    }
    while true
      invariant Blocks(chunks) && failure.None? && s.output == old(s.output) + DataMessages(chunks)
      invariant old(file.input) == Concat(chunks) + file.input
      decreases |file.input|
    {
      var n, buffer := file.Read(SYNC_DATA_MAX);
      if n <= 0 {
        if n == 0 { break; }
        var reason := Strerror();
        var ok := FailMessage(s, reason);
        failure := Some(reason);
        return if ok then 0 else -1, chunks, failure;
      }
      var ok := Writex(s, Message(ID_DATA, n));
      if ok { ok := Writex(s, buffer); }
      if !ok { return -1, chunks, failure; }
      DataAppend(chunks, buffer);
      chunks := chunks + [buffer];
    }
    var ok := Writex(s, Message(ID_DONE, 0));
    r := if ok then 0 else -1;
  }

  lemma DataAppend(chunks: seq<Bytes>, c: Bytes)
    requires Blocks(chunks) && |c| <= SYNC_DATA_MAX
    ensures Blocks(chunks + [c])
    ensures DataMessages(chunks + [c]) == DataMessages(chunks) + (Message(ID_DATA, |c|) + c)
    ensures Concat(chunks + [c]) == Concat(chunks) + c
  {
    hide Message, DataMessages;
    ConcatAppend(chunks, [c]);
    assert Concat([c]) == c;
    MessagesAppend(chunks, c);
  }

  lemma {:induction false} MessagesAppend(chunks: seq<Bytes>, c: Bytes)
    requires Blocks(chunks) && |c| <= SYNC_DATA_MAX
    ensures Blocks(chunks + [c])
    ensures DataMessages(chunks + [c]) == DataMessages(chunks) + (Message(ID_DATA, |c|) + c)
  {
    hide Message;
    if chunks == [] {
      assert chunks + [c] == [c];
      assert DataMessages([c]) == Message(ID_DATA, |c|) + c;
    } else {
      MessagesAppend(chunks[1..], c);
      assert (chunks + [c])[1..] == chunks[1..] + [c];
    }
  }

  /** A file sent by do_recv and fed to do_send is the same file, for any sizes of the reads and writes
      and whatever the target held before. */
  method Copy(file: Fd, link: Fd, s: Fd, path: Path) returns (r: int)
    requires file != link && file != s && link != s
    requires file.healthy && link.healthy && s.healthy && path.healthy && link.output == []
    modifies file, link, s, path
    ensures r == 0 && path.file == Some(old(file.input)) && s.input == old(s.input)
    ensures s.output == old(s.output) + Message(ID_OKAY, 0)
  {
    hide ReadUpload, StatusBytes, Message, DataMessages;
    ghost var after := s.input;
    ghost var chunks, failure;
    ghost var status;
    r, chunks, failure := DoRecv(file, link);
    s.input := link.output + s.input;
    assert link.output == DataMessages(chunks) + Message(ID_DONE, 0);
    UploadRoundTrip(chunks, 0, after);
    r, status := DoSend(s, path);
    OkayBytes();
  }
}
