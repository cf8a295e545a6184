// The blob cache: a blob is written beside its place and renamed into it.
module FileCache {
  import opened Common
  import opened Bytes

  type Hash = string
  type Inode = nat

  // The directory. A part file is named after its own inode; `blobs` are the
  // files under their final names. Contents belong to inodes, so a reader that
  // has a file open keeps it when the name moves on to another.
  datatype Dir = Dir(files: map<Inode, Bytes>, parts: set<Inode>, blobs: map<Hash, Inode>, next: Inode)

  predicate HexDigit(c: char) { '0' <= c <= '9' || 'a' <= c <= 'f' }

  predicate ValidHash(hash: Hash) { |hash| == 64 && forall i | 0 <= i < |hash| :: HexDigit(hash[i]) }

  lemma DigitIsListed(c: char)
    ensures HexDigit(c) <==> c in "0123456789abcdef"
  {
    var digits := "0123456789abcdef";
    assert forall i | 0 <= i < 10 :: digits[i] == '0' + i as char;
    assert forall i | 10 <= i < 16 :: digits[i] == 'a' + (i - 10) as char;
    if '0' <= c <= '9' { assert digits[c as int - '0' as int] == c; }
    if 'a' <= c <= 'f' { assert digits[c as int - 'a' as int + 10] == c; }
  }

  // A hash is 64 lower-case hexadecimal digits.
  lemma HashIsHex(hash: Hash)
    ensures ValidHash(hash) <==> |hash| == 64 && forall i | 0 <= i < |hash| :: hash[i] in "0123456789abcdef"
  {
    forall i | 0 <= i < |hash|
      ensures HexDigit(hash[i]) <==> hash[i] in "0123456789abcdef"
    {
      DigitIsListed(hash[i]);
    }
  }

  // What a Put is given: the bytes its reader delivers and whether the reader
  // then ends without an error.
  datatype Request = Request(hash: Hash, input: Bytes, endsWell: bool)

  function MakePart(d: Dir): Dir {
    Dir(d.files[d.next := []], d.parts + {d.next}, d.blobs, d.next + 1)
  }

  function Grow(d: Dir, i: Inode, bytes: Bytes): Dir
    requires i in d.files
  {
    d.(files := d.files[i := d.files[i] + bytes])
  }

  function Publish(d: Dir, i: Inode, hash: Hash): Dir {
    d.(parts := d.parts - {i}, blobs := d.blobs[hash := i])
  }

  function DropPart(d: Dir, i: Inode): Dir { d.(parts := d.parts - {i}) }

  // --------------------------------------------------------- Put, step by step

  datatype Pc =
    | Looking                          // is the blob there already?
    | Making
    | Copying(part: Inode, sent: nat)
    | Shutting(part: Inode)
    | Moving(part: Inode)
    | LookingAgain(part: Inode)        // the rename failed
    | Cleaning(part: Inode)
    | Returned(ok: bool, file: Option<Inode>)

  datatype Put = Put(req: Request, pc: Pc)

  // What the system adds to one step: a failure, and how much a copy moves.
  datatype Io = Io(fails: bool, chunk: nat)

  function Begin(req: Request): Put { Put(req, if ValidHash(req.hash) then Looking else Returned(false, None)) }

  function StepPut(p: Put, d: Dir, io: Io): (Put, Dir)
    requires !p.pc.Returned?
    requires p.pc.Copying? ==> p.pc.part in d.files && p.pc.sent <= |p.req.input|
  {
    var goto := (pc: Pc) => p.(pc := pc);
    match p.pc
    case Looking =>
      (goto(if !io.fails && p.req.hash in d.blobs then Returned(true, None) else Making), d)
    case Making =>
      if io.fails then (goto(Returned(false, None)), d) else (goto(Copying(d.next, 0)), MakePart(d))
    case Copying(i, sent) =>
      if io.fails then (goto(Cleaning(i)), d)
      else if sent == |p.req.input| then (goto(if p.req.endsWell then Shutting(i) else Cleaning(i)), d)
      else
        var n := if io.chunk == 0 || io.chunk > |p.req.input| - sent then |p.req.input| - sent else io.chunk;
        (goto(Copying(i, sent + n)), Grow(d, i, p.req.input[sent..sent + n]))
    case Shutting(i) => (goto(if io.fails then Cleaning(i) else Moving(i)), d)
    case Moving(i) =>
      if io.fails then (goto(LookingAgain(i)), d) else (goto(Returned(true, Some(i))), Publish(d, i, p.req.hash))
    case LookingAgain(i) =>
      (goto(if !io.fails && p.req.hash in d.blobs then Returned(true, Some(i)) else Cleaning(i)), d)
    case Cleaning(i) => (goto(Returned(false, Some(i))), if io.fails then d else DropPart(d, i))
  }

  // -------------------------------------------------- any number of Puts at once

  type PutId = nat
  type ReaderId = nat

  // Which Put made a file, and from what.
  datatype Origin = Origin(put: PutId, req: Request)

  // `origins` records where each file came from, `published` the files that were
  // renamed into place, `left` the part files nobody will clean up any more.
  datatype St = St(
    dir: Dir, puts: map<PutId, Put>, readers: map<ReaderId, Inode>,
    origins: map<Inode, Origin>, published: set<Inode>, left: set<Inode>)

  datatype Label =
    | Start(p: PutId, req: Request)
    | Step(p: PutId, io: Io)
    | Open(r: ReaderId, hash: Hash)
    | Crash                                // the process dies; the files remain

  ghost predicate Enabled(s: St, l: Label) {
    match l
    case Start(p, _) => p !in s.puts
    case Step(p, _) =>
      p in s.puts && !s.puts[p].pc.Returned?
      && (s.puts[p].pc.Copying? ==> s.puts[p].pc.part in s.dir.files && s.puts[p].pc.sent <= |s.puts[p].req.input|)
    case Open(r, hash) => r !in s.readers && hash in s.dir.blobs
    case Crash => true
  }

  // A part file is left behind when the rename failed but the blob is there
  // anyway, and when removing it failed.
  predicate Leaves(p: Put, d: Dir, io: Io) {
    (p.pc.LookingAgain? && !io.fails && p.req.hash in d.blobs) || (p.pc.Cleaning? && io.fails)
  }

  function Apply(s: St, l: Label): St
    requires Enabled(s, l)
  {
    match l
    case Start(p, req) => s.(puts := s.puts[p := Begin(req)])
    case Step(p, io) =>
      var put := s.puts[p];
      var (put', dir') := StepPut(put, s.dir, io);
      St(dir', s.puts[p := put'], s.readers,
         if put.pc.Making? && !io.fails then s.origins[s.dir.next := Origin(p, put.req)] else s.origins,
         if put.pc.Moving? && !io.fails then s.published + {put.pc.part} else s.published,
         if Leaves(put, s.dir, io) then s.left + {put.pc.part} else s.left)
    case Open(r, hash) => s.(readers := s.readers[r := s.dir.blobs[hash]])
    case Crash => s.(puts := map[], left := s.left + s.dir.parts)
  }

  ghost predicate Init(s: St) { s == St(Dir(map[], {}, map[], 0), map[], map[], map[], {}, {}) }

  ghost predicate IsRun(states: seq<St>, labels: seq<Label>) {
    && |states| == |labels| + 1
    && Init(states[0])
    && forall i | 0 <= i < |labels| :: Enabled(states[i], labels[i]) && states[i + 1] == Apply(states[i], labels[i])
  }

  // -------------------------------------------------------------- the invariant

  predicate Holding(pc: Pc) {
    pc.Copying? || pc.Shutting? || pc.Moving? || pc.LookingAgain? || pc.Cleaning?
  }

  // The file a Put made, if it got that far.
  function FileOf(pc: Pc): Option<Inode> {
    if Holding(pc) then Some(pc.part) else if pc.Returned? then pc.file else None
  }

  // A published file holds all the bytes of one request whose input ended well.
  ghost predicate FileOk(s: St, i: Inode) {
    && (i in s.dir.files ==> i < s.dir.next && i in s.origins)
    && (i in s.dir.parts ==> i in s.dir.files) && (i in s.left ==> i in s.dir.parts)
    && (i in s.published ==>
          && i in s.dir.files && i !in s.dir.parts
          && s.origins[i].req.endsWell && s.dir.files[i] == s.origins[i].req.input)
    && (i in s.dir.parts && i !in s.left ==>
          i in s.dir.files && s.origins[i].put in s.puts
          && Holding(s.puts[s.origins[i].put].pc) && s.puts[s.origins[i].put].pc.part == i)
  }

  ghost predicate PutOk(s: St, p: PutId)
    requires p in s.puts
  {
    var put := s.puts[p];
    var pc := put.pc;
    && (FileOf(pc).Some? ==>
          var i := FileOf(pc).value; i in s.dir.files && i in s.origins && s.origins[i] == Origin(p, put.req))
    && (Holding(pc) ==> pc.part in s.dir.parts && pc.part !in s.left && pc.part !in s.published)
    && (pc.Copying? ==> pc.sent <= |put.req.input| && s.dir.files[pc.part] == put.req.input[..pc.sent])
    && (pc.Shutting? || pc.Moving? || pc.LookingAgain? ==>
          put.req.endsWell && s.dir.files[pc.part] == put.req.input)
    && (pc.Returned? ==>
          if pc.ok then put.req.hash in s.dir.blobs else pc.file.Some? ==> pc.file.value !in s.published)
    && (!pc.Returned? ==> ValidHash(put.req.hash))
  }

  ghost predicate BlobOk(s: St, h: Hash) {
    h in s.dir.blobs ==>
      var i := s.dir.blobs[h];
      ValidHash(h) && i in s.published && i in s.origins && s.origins[i].req.hash == h
  }

  ghost predicate Inv(s: St) {
    && (forall i :: FileOk(s, i))
    && (forall h :: BlobOk(s, h))
    && (forall r | r in s.readers :: s.readers[r] in s.published)
    && (forall p | p in s.puts :: PutOk(s, p))
  }

  // --------------------------------------------------------- one step at a time

  lemma StepKeepsFile(s: St, p: PutId, io: Io, i: Inode)
    requires Enabled(s, Step(p, io)) && PutOk(s, p) && FileOk(s, i) && FileOk(s, s.dir.next)
    ensures FileOk(Apply(s, Step(p, io)), i)
  {
  }

  lemma StepKeepsBlob(s: St, p: PutId, io: Io, h: Hash)
    requires Enabled(s, Step(p, io)) && PutOk(s, p) && BlobOk(s, h) && FileOk(s, s.dir.next)
    requires h in s.dir.blobs ==> FileOk(s, s.dir.blobs[h])
    ensures BlobOk(Apply(s, Step(p, io)), h)
  {
  }

  lemma StepKeepsOther(s: St, p: PutId, io: Io, q: PutId)
    requires Enabled(s, Step(p, io)) && q in s.puts && q != p && PutOk(s, p) && PutOk(s, q) && FileOk(s, s.dir.next)
    ensures PutOk(Apply(s, Step(p, io)), q)
  {
  }

  lemma CopyKeepsSelf(s: St, p: PutId, io: Io)
    requires Enabled(s, Step(p, io)) && PutOk(s, p) && s.puts[p].pc.Copying?
    ensures PutOk(Apply(s, Step(p, io)), p)
  {
    var input, sent := s.puts[p].req.input, s.puts[p].pc.sent;
    assert input[..|input|] == input;
    var n := if io.chunk == 0 || io.chunk > |input| - sent then |input| - sent else io.chunk;
    assert input[..sent] + input[sent..sent + n] == input[..sent + n];
  }

  lemma StepKeepsSelf(s: St, p: PutId, io: Io)
    requires Enabled(s, Step(p, io)) && PutOk(s, p) && FileOk(s, s.dir.next)
    ensures PutOk(Apply(s, Step(p, io)), p)
  {
    if s.puts[p].pc.Copying? { CopyKeepsSelf(s, p, io); }
  }

  lemma StepKeepsInv(s: St, l: Label)
    requires Inv(s) && Enabled(s, l)
    ensures Inv(Apply(s, l))
  {
    var s' := Apply(s, l);
    assert FileOk(s, s.dir.next);
    match l
    case Step(p, io) =>
      forall i ensures FileOk(s', i) { assert FileOk(s, i); StepKeepsFile(s, p, io, i); }
      forall h ensures BlobOk(s', h) {
        assert BlobOk(s, h);
        if h in s.dir.blobs { assert FileOk(s, s.dir.blobs[h]); }
        StepKeepsBlob(s, p, io, h);
      }
      forall q | q in s'.puts ensures PutOk(s', q) {
        if q == p { StepKeepsSelf(s, p, io); } else { StepKeepsOther(s, p, io, q); }
      }
    case Start(p, req) =>
      forall i ensures FileOk(s', i) { assert FileOk(s, i); }
      forall h ensures BlobOk(s', h) { assert BlobOk(s, h); }
      forall q | q in s'.puts ensures PutOk(s', q) { assert q != p ==> PutOk(s, q); }
    case Open(r, hash) =>
      forall i ensures FileOk(s', i) { assert FileOk(s, i); }
      forall h ensures BlobOk(s', h) { assert BlobOk(s, h); }
      assert BlobOk(s, hash);
      forall q | q in s'.puts ensures PutOk(s', q) { assert PutOk(s, q); }
    case Crash =>
      forall i ensures FileOk(s', i) { assert FileOk(s, i); }
      forall h ensures BlobOk(s', h) { assert BlobOk(s, h); }
  }

  lemma {:induction false} RunKeepsInv(states: seq<St>, labels: seq<Label>, k: nat)
    requires IsRun(states, labels) && k < |states|
    ensures Inv(states[k])
  {
    if k > 0 {
      RunKeepsInv(states, labels, k - 1);
      StepKeepsInv(states[k - 1], labels[k - 1]);
    }
  }

  // ------------------------------------------------------------- main results

  // Whoever has a blob open, or opens one, sees the complete bytes of one Put
  // for that hash whose input ended without error.
  lemma ReaderSeesOneWholePut(states: seq<St>, labels: seq<Label>, k: nat, i: Inode)
    requires IsRun(states, labels) && k < |states|
    requires i in states[k].readers.Values || i in states[k].dir.blobs.Values
    ensures var s := states[k];
            && i in s.dir.files && i in s.origins
            && s.origins[i].req.endsWell && s.dir.files[i] == s.origins[i].req.input
            && forall h | h in s.dir.blobs && s.dir.blobs[h] == i :: s.origins[i].req.hash == h
  {
    RunKeepsInv(states, labels, k);
    var s := states[k];
    if i in s.dir.blobs.Values {
      var h :| h in s.dir.blobs && s.dir.blobs[h] == i;
      assert BlobOk(s, h);
    }
    assert FileOk(s, i);
    forall h | h in s.dir.blobs && s.dir.blobs[h] == i
      ensures s.origins[i].req.hash == h
    {
      assert BlobOk(s, h);
    }
  }

  // Once a blob is there it stays, through failures and crashes, and an open
  // file never changes under its reader.
  lemma {:induction false} BlobsStay(states: seq<St>, labels: seq<Label>, j: nat, k: nat)
    requires IsRun(states, labels) && j <= k < |states|
    ensures states[j].dir.blobs.Keys <= states[k].dir.blobs.Keys
    ensures states[j].published <= states[k].published
    ensures forall i | i in states[j].published ::
              i in states[j].dir.files && i in states[k].dir.files && states[k].dir.files[i] == states[j].dir.files[i]
  {
    if j < k {
      BlobsStay(states, labels, j, k - 1);
      RunKeepsInv(states, labels, k - 1);
      PublishedFilesStand(states[k - 1], labels[k - 1]);
    } else {
      RunKeepsInv(states, labels, j);
      forall i | i in states[j].published ensures i in states[j].dir.files { assert FileOk(states[j], i); }
    }
  }

  lemma PublishedFilesStand(s: St, l: Label)
    requires Inv(s) && Enabled(s, l)
    ensures var s' := Apply(s, l);
            && s.dir.blobs.Keys <= s'.dir.blobs.Keys && s.published <= s'.published
            && forall i | i in s.published :: i in s.dir.files && i in s'.dir.files && s'.dir.files[i] == s.dir.files[i]
  {
    var s' := Apply(s, l);
    forall i | i in s.published
      ensures i in s.dir.files && i in s'.dir.files && s'.dir.files[i] == s.dir.files[i]
    {
      assert FileOk(s, i);
      assert FileOk(s, s.dir.next);
      match l
      case Step(p, io) => assert PutOk(s, p);
      case _ =>
    }
  }

  // A Put that returned an error left nothing anybody can open; one that
  // returned success left its hash present.
  lemma ReturnedPutsTellTheTruth(states: seq<St>, labels: seq<Label>, k: nat, p: PutId)
    requires IsRun(states, labels) && k < |states| && p in states[k].puts && states[k].puts[p].pc.Returned?
    ensures var s, put := states[k], states[k].puts[p];
            && (put.pc.ok ==> put.req.hash in s.dir.blobs)
            && (!put.pc.ok && put.pc.file.Some? ==>
                  put.pc.file.value !in s.dir.blobs.Values && put.pc.file.value !in s.readers.Values)
            && (!ValidHash(put.req.hash) ==> !put.pc.ok)
  {
    RunKeepsInv(states, labels, k);
    var s, put := states[k], states[k].puts[p];
    assert PutOk(s, p);
    if put.pc.ok { assert BlobOk(s, put.req.hash); }
    forall h | h in s.dir.blobs
      ensures s.dir.blobs[h] in s.published
    {
      assert BlobOk(s, h);
    }
  }

  // The steps that strand a part file.
  ghost predicate Strands(s: St, l: Label) {
    match l
    case Step(p, io) => p in s.puts && Leaves(s.puts[p], s.dir, io)
    case Crash => s.dir.parts != {}
    case _ => false
  }

  lemma {:induction false} LeftMeansStranded(states: seq<St>, labels: seq<Label>, k: nat)
    requires IsRun(states, labels) && k < |states|
    ensures states[k].left == {} <==> forall j | 0 <= j < k :: !Strands(states[j], labels[j])
  {
    if k > 0 {
      LeftMeansStranded(states, labels, k - 1);
      var s, l := states[k - 1], labels[k - 1];
      if Strands(s, l) {
        match l
        case Step(p, io) => assert s.puts[p].pc.part in states[k].left;
        case Crash =>
          var i :| i in s.dir.parts;
          assert i in states[k].left;
      }
    }
  }

  // Once all Puts are done the part files that remain are the stranded ones:
  // none, exactly when no step stranded one.
  lemma NoPartRemains(states: seq<St>, labels: seq<Label>, k: nat)
    requires IsRun(states, labels) && k < |states|
    requires forall p | p in states[k].puts :: states[k].puts[p].pc.Returned?
    ensures states[k].dir.parts == states[k].left
    ensures (forall j | 0 <= j < k :: !Strands(states[j], labels[j])) <==> states[k].dir.parts == {}
  {
    RunKeepsInv(states, labels, k);
    LeftMeansStranded(states, labels, k);
    var s := states[k];
    forall i
      ensures i in s.dir.parts <==> i in s.left
    {
      assert FileOk(s, i);
    }
  }

  // ------------------------------------------------------- one Put on its own

  // What goes wrong during one Put; `write` says after how many bytes the copy
  // fails.
  datatype Trouble = Trouble(
    stat: bool, make: bool, write: Option<nat>, shut: bool, move: bool, statAgain: bool, clean: bool)

  function Sent(req: Request, t: Trouble): (r: Bytes)
    ensures r <= req.input && (r == req.input || (t.write.Some? && |r| == t.write.value))
    ensures t.write.Some? ==> |r| <= t.write.value
  {
    if t.write.Some? && t.write.value < |req.input| then req.input[..t.write.value] else req.input
  }

  function Cleaned(d: Dir, i: Inode, t: Trouble): Dir { if t.clean then d else DropPart(d, i) }

  // The directory afterwards, and whether Put returned success.
  function PutAlone(d: Dir, req: Request, t: Trouble): (Dir, bool) {
    if !ValidHash(req.hash) then (d, false)
    else if !t.stat && req.hash in d.blobs then (d, true)
    else if t.make then (d, false)
    else
      var i := d.next;
      var filled := Grow(MakePart(d), i, Sent(req, t));
      if t.write.Some? || !req.endsWell || t.shut then (Cleaned(filled, i, t), false)
      else if !t.move then (Publish(filled, i, req.hash), true)
      else if !t.statAgain && req.hash in d.blobs then (filled, true)
      else (Cleaned(filled, i, t), false)
  }

  datatype ReadError = InvalidHash | Missing | IoFailed

  class Cache {
    var files: map<Inode, Bytes>
    var parts: set<Inode>
    var blobs: map<Hash, Inode>
    var next: Inode

    ghost function View(): Dir
      reads this
    {
      Dir(files, parts, blobs, next)
    }

    constructor ()
      ensures View() == Dir(map[], {}, map[], 0)
    {
      files, parts, blobs, next := map[], {}, map[], 0;
    }

    // `fails`: the file system gives some error other than "no such file".
    method Stat(hash: Hash, fails: bool) returns (r: Result<Inode, ReadError>)
      ensures r == Err(IoFailed) <==> fails
      ensures r == Err(Missing) <==> !fails && hash !in blobs
      ensures r.Ok? ==> hash in blobs && r.value == blobs[hash]
      ensures r != Err(InvalidHash)
    {
      if fails { return Err(IoFailed); }
      if hash !in blobs { return Err(Missing); }
      r := Ok(blobs[hash]);
    }

    // A missing blob is an answer, not an error.
    method Has(hash: Hash, fails: bool) returns (r: Result<bool, ReadError>)
      ensures r == Err(InvalidHash) <==> !ValidHash(hash)
      ensures r == Err(IoFailed) <==> ValidHash(hash) && fails
      ensures r.Ok? ==> (r.value <==> hash in View().blobs)
      ensures r != Err(Missing)
    {
      if !ValidHash(hash) { return Err(InvalidHash); }
      var found := Stat(hash, fails);
      match found
      case Ok(_) => r := Ok(true);
      case Err(e) => r := if e == Missing then Ok(false) else Err(e);
    }

    method Open(hash: Hash, fails: bool) returns (r: Result<Inode, ReadError>)
      ensures r == Err(InvalidHash) <==> !ValidHash(hash)
      ensures r == Err(IoFailed) <==> ValidHash(hash) && fails
      ensures r == Err(Missing) <==> ValidHash(hash) && !fails && hash !in View().blobs
      ensures r.Ok? ==> hash in View().blobs && r.value == View().blobs[hash]
    {
      if !ValidHash(hash) { return Err(InvalidHash); }
      r := Stat(hash, fails);
    }

    // The copy, in pieces of any size.
    method CopyInto(i: Inode, input: Bytes)
      requires i in files
      modifies this`files
      ensures files == old(files)[i := old(files)[i] + input]
    {
      var sent := 0;
      assert files[i] + input[..0] == files[i];
      while sent < |input|
        invariant 0 <= sent <= |input|
        invariant files == old(files)[i := old(files)[i] + input[..sent]]
      {
        var n :| 0 < n <= |input| - sent;
        files := files[i := files[i] + input[sent..sent + n]];
        assert input[..sent] + input[sent..sent + n] == input[..sent + n];
        assert old(files)[i] + input[..sent] + input[sent..sent + n] == old(files)[i] + input[..sent + n];
        sent := sent + n;
      }
      assert input[..sent] == input;
    }

    method Put(req: Request, t: Trouble) returns (ok: bool)
      modifies this
      ensures (View(), ok) == PutAlone(old(View()), req, t)
      ensures !ValidHash(req.hash) ==> !ok
      ensures ValidHash(req.hash) && req.hash in old(blobs) && !t.stat ==> ok
      ensures ValidHash(req.hash) && (req.hash !in old(blobs) || t.stat) ==>
        (ok <==> !t.make && t.write.None? && req.endsWell && !t.shut &&
                 (!t.move || (req.hash in old(blobs) && !t.statAgain)))
      ensures blobs == old(blobs) || (
        && ok && blobs == old(blobs)[req.hash := old(next)] && old(next) in files && files[old(next)] == req.input)
      ensures ok ==> req.hash in blobs
    {
      if !ValidHash(req.hash) { return false; }
      if !t.stat && req.hash in blobs { return true; }
      if t.make { return false; }
      var part := next;
      files, parts, next := files[part := []], parts + {part}, next + 1;
      var success := false;
      CopyInto(part, Sent(req, t));
      if t.write.None? && req.endsWell && !t.shut {
        if !t.move {
          parts, blobs := parts - {part}, blobs[req.hash := part];
          success := true;
        } else if !t.statAgain && req.hash in blobs {
          success := true;
        }
      }
      if !success && !t.clean { parts := parts - {part}; }
      ok := success;
    }
  }

  // ------------------------------------------ the lone Put is a run of the steps

  function RunPut(p: Put, d: Dir, ios: seq<Io>): (Put, Dir)
    requires Ready(p, d)
    decreases |ios|
  {
    if ios == [] || p.pc.Returned? then (p, d)
    else
      var (p', d') := StepPut(p, d, ios[0]);
      RunPut(p', d', ios[1..])
  }

  predicate Ready(p: Put, d: Dir) {
    && (Holding(p.pc) ==> p.pc.part in d.files)
    && (p.pc.Copying? ==> p.pc.sent <= |p.req.input|)
  }

  lemma OneStep(p: Put, d: Dir, io: Io, more: seq<Io>)
    requires Ready(p, d) && !p.pc.Returned?
    ensures var (p', d') := StepPut(p, d, io);
            Ready(p', d') && RunPut(p, d, [io] + more) == RunPut(p', d', more)
  {
    assert ([io] + more)[1..] == more;
  }

  ghost predicate Ends(p: Put, d: Dir, ios: seq<Io>, d': Dir, ok: bool)
    requires Ready(p, d)
  {
    var (q, e) := RunPut(p, d, ios);
    e == d' && q.pc.Returned? && q.pc.ok == ok
  }

  lemma CleaningEnds(p: Put, d: Dir, t: Trouble) returns (ios: seq<Io>)
    requires Ready(p, d) && p.pc.Cleaning?
    ensures Ends(p, d, ios, Cleaned(d, p.pc.part, t), false)
  {
    ios := [Io(t.clean, 0)];
    OneStep(p, d, ios[0], []);
    assert ios == [ios[0]] + [];
  }

  lemma MovingEnds(p: Put, d: Dir, t: Trouble) returns (ios: seq<Io>)
    requires Ready(p, d) && p.pc.Moving?
    ensures var (i, hash) := (p.pc.part, p.req.hash);
            if !t.move then Ends(p, d, ios, Publish(d, i, hash), true)
            else if !t.statAgain && hash in d.blobs then Ends(p, d, ios, d, true)
            else Ends(p, d, ios, Cleaned(d, i, t), false)
  {
    if !t.move {
      OneStep(p, d, Io(false, 0), []);
      ios := [Io(false, 0)] + [];
    } else {
      var again := p.(pc := LookingAgain(p.pc.part));
      var more := [];
      if t.statAgain || p.req.hash !in d.blobs { more := CleaningEnds(p.(pc := Cleaning(p.pc.part)), d, t); }
      OneStep(again, d, Io(t.statAgain, 0), more);
      OneStep(p, d, Io(true, 0), [Io(t.statAgain, 0)] + more);
      ios := [Io(true, 0)] + ([Io(t.statAgain, 0)] + more);
    }
  }

  // From an empty part file: copy what goes through, then fail or go on.
  lemma CopyingEnds(p: Put, d: Dir, t: Trouble) returns (ios: seq<Io>)
    requires Ready(p, d) && p.pc.Copying? && p.pc.sent == 0 && d.files[p.pc.part] == []
    ensures var (i, filled) := (p.pc.part, Grow(d, p.pc.part, Sent(p.req, t)));
            if t.write.Some? || !p.req.endsWell || t.shut then Ends(p, d, ios, Cleaned(filled, i, t), false)
            else if !t.move then Ends(p, d, ios, Publish(filled, i, p.req.hash), true)
            else if !t.statAgain && p.req.hash in d.blobs then Ends(p, d, ios, filled, true)
            else Ends(p, d, ios, Cleaned(filled, i, t), false)
  {
    var i, sent := p.pc.part, Sent(p.req, t);
    var copied, filled := p.(pc := Copying(i, |sent|)), Grow(d, i, sent);
    if t.write.Some? {
      var more := CleaningEnds(p.(pc := Cleaning(i)), filled, t);
      OneStep(copied, filled, Io(true, 0), more);
      ios := [Io(true, 0)] + more;
    } else if !p.req.endsWell {
      var more := CleaningEnds(p.(pc := Cleaning(i)), filled, t);
      OneStep(copied, filled, Io(false, 0), more);
      ios := [Io(false, 0)] + more;
    } else {
      var more;
      if t.shut { more := CleaningEnds(p.(pc := Cleaning(i)), filled, t); }
      else { more := MovingEnds(p.(pc := Moving(i)), filled, t); }
      OneStep(p.(pc := Shutting(i)), filled, Io(t.shut, 0), more);
      OneStep(copied, filled, Io(false, 0), [Io(t.shut, 0)] + more);
      ios := [Io(false, 0)] + ([Io(t.shut, 0)] + more);
    }
    if sent == [] {
      assert filled == d;
    } else {
      assert p.req.input[0..|sent|] == sent;
      OneStep(p, d, Io(false, |sent|), ios);
      ios := [Io(false, |sent|)] + ios;
    }
  }

  lemma LonePutIsARun(d: Dir, req: Request, t: Trouble) returns (ios: seq<Io>)
    ensures var p := Begin(req);
            var (d', ok) := PutAlone(d, req, t);
            Ready(p, d) && Ends(p, d, ios, d', ok)
  {
    var p := Begin(req);
    ios := [];
    if ValidHash(req.hash) {
      if t.stat || req.hash !in d.blobs {
        if t.make {
          ios := [Io(true, 0)];
          OneStep(p.(pc := Making), d, ios[0], []);
        } else {
          var more := CopyingEnds(p.(pc := Copying(d.next, 0)), MakePart(d), t);
          OneStep(p.(pc := Making), d, Io(false, 0), more);
          ios := [Io(false, 0)] + more;
        }
      }
      OneStep(p, d, Io(t.stat, 0), ios);
      ios := [Io(t.stat, 0)] + ios;
    }
  }
}
