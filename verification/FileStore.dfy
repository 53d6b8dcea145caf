/** The flat data directory: streaming copy with size and hash, temporary file and rename, idempotent
    delete, listing. Disk contents are a map from names to bytes. */
module FileStore {
  import opened Prelude
  import opened Bytes
  import opened Uuid

  /** How a call of the reader ended besides the bytes it delivered. */
  datatype ReadStatus = More | Eof | ReadFailed(error: string)

  datatype Chunk = Chunk(bytes: seq<byte>, status: ReadStatus)

  datatype StoreError = Empty | TooLarge | Unavailable | Cancelled | Reader(error: string)

  datatype StoredFile = StoredFile(path: string, size: nat, hash: string)

  /** What a request's reader will deliver, call after call, up to the call that ends it. */
  predicate Ends(calls: seq<Chunk>) {
    calls != [] && !calls[|calls| - 1].status.More? && forall i :: 0 <= i < |calls| - 1 ==> calls[i].status.More?
  }

  /** The byte stream behind the calls. */
  function Stream(calls: seq<Chunk>): seq<byte> {
    if calls == [] then [] else Stream(calls[..|calls| - 1]) + calls[|calls| - 1].bytes
  }

  /** What the copy makes of a whole stream and of how it ended: too long beats a failing reader, which
      beats an empty file. */
  function Verdict(
      alg: HashAlg, stream: seq<byte>, end: ReadStatus, limit: nat): Result<StoredFile, StoreError> {
    if |stream| > limit then Err(TooLarge)
    else if end.ReadFailed? then Err(Reader(end.error))
    else if stream == [] then Err(Empty)
    else Ok(StoredFile("", |stream|, Digest(alg, stream)))
  }

  /** Accepted exactly when the stream ends well and has between one byte and the limit. */
  lemma VerdictAccepts(alg: HashAlg, stream: seq<byte>, end: ReadStatus, limit: nat)
    ensures Verdict(alg, stream, end, limit).Ok? <==> 0 < |stream| <= limit && !end.ReadFailed?
  {
  }

  lemma StreamStep(calls: seq<Chunk>, i: nat)
    requires i < |calls|
    ensures Stream(calls[..i + 1]) == Stream(calls[..i]) + calls[i].bytes
  {
    assert calls[..i + 1][..i] == calls[..i];
  }

  lemma {:induction false} StreamGrows(calls: seq<Chunk>, i: nat)
    requires i <= |calls|
    ensures |Stream(calls[..i])| <= |Stream(calls)|
    ensures Stream(calls)[..|Stream(calls[..i])|] == Stream(calls[..i])
    decreases |calls| - i
  {
    if i == |calls| {
      assert calls[..i] == calls;
    } else {
      StreamGrows(calls, i + 1);
      StreamStep(calls, i);
    }
  }

  lemma StreamSnoc(calls: seq<Chunk>, c: Chunk)
    ensures Stream(calls + [c]) == Stream(calls) + c.bytes
  {
    assert (calls + [c])[..|calls|] == calls;
  }

  lemma {:induction false} StreamConcat(a: seq<Chunk>, b: seq<Chunk>)
    ensures Stream(a + b) == Stream(a) + Stream(b)
  {
    if b == [] {
      assert a + b == a && Stream(a) + [] == Stream(a);
    } else {
      var init, last := b[..|b| - 1], b[|b| - 1];
      StreamConcat(a, init);
      StreamSnoc(a + init, last);
      StreamSnoc(init, last);
      Associates(a, init, [last]);
      Associates(Stream(a), Stream(init), last.bytes);
      assert b == init + [last];
    }
  }

  lemma StreamOfOne(c: Chunk)
    ensures Stream([c]) == c.bytes
  {
    assert [c][..0] == [] && Stream([]) == [];
  }

  /** Splitting a read in two, or inserting an empty one, does not change the stream; by the contract of
      StreamCopy it does not change the outcome either. */
  lemma ChunkingDoesNotMatter(
      before: seq<Chunk>, x: seq<byte>, y: seq<byte>, status: ReadStatus, after: seq<Chunk>)
    ensures Stream(before + [Chunk(x, More), Chunk(y, status)] + after) ==
        Stream(before + [Chunk(x + y, status)] + after)
  {
    var first, second, one := [Chunk(x, More)], [Chunk(y, status)], [Chunk(x + y, status)];
    StreamOfOne(first[0]);
    StreamOfOne(second[0]);
    StreamOfOne(one[0]);
    StreamConcat(first, second);
    assert [Chunk(x, More), Chunk(y, status)] == first + second;
    StreamConcat(before, first + second);
    StreamConcat(before, one);
    StreamConcat(before + (first + second), after);
    StreamConcat(before + one, after);
  }

  /** The bytes delivered before call i. */
  ghost predicate Delivered(calls: seq<Chunk>, i: nat, sofar: seq<byte>) {
    i < |calls| && sofar == Stream(calls[..i]) && sofar <= Stream(calls)
  }

  lemma NextRead(calls: seq<Chunk>, i: nat, sofar: seq<byte>)
    requires Ends(calls) && Delivered(calls, i, sofar)
    ensures var more := sofar + calls[i].bytes;
      && more <= Stream(calls)
      && (if calls[i].status.More? then Delivered(calls, i + 1, more)
          else (i == |calls| - 1 && more == Stream(calls)))
  {
    StreamStep(calls, i);
    StreamGrows(calls, i + 1);
    if !calls[i].status.More? { assert calls[..i + 1] == calls; }
  }

  /** What can go wrong on the storage side. ctxEnds and writeFails count the turns of the copy loop. */
  datatype Trouble = Trouble(
    spaceLow: bool, createFails: bool, ctxEnds: Option<nat>, writeFails: Option<nat>,
    closeFails: bool, removeFails: bool, renameFails: bool)

  /** The trouble strikes the copy of these reads, if the copy goes through all of them. */
  predicate StrikesCopy(trouble: Trouble, calls: seq<Chunk>) {
    || (trouble.ctxEnds.Some? && trouble.ctxEnds.value < |calls|)
    || (trouble.writeFails.Some? && trouble.writeFails.value < |calls| && calls[trouble.writeFails.value].bytes != [])
  }

  predicate Strikes(trouble: Trouble, calls: seq<Chunk>) {
    trouble.spaceLow || trouble.createFails || StrikesCopy(trouble, calls) || trouble.closeFails || trouble.renameFails
  }

  /** The verdict on the whole of what the reader delivers. */
  function Judged(alg: HashAlg, calls: seq<Chunk>, limit: nat): Result<StoredFile, StoreError>
    requires Ends(calls)
  {
    Verdict(alg, Stream(calls), calls[|calls| - 1].status, limit)
  }

  class Store {
    var files: map<string, seq<byte>>
    const limit: nat
    const alg: HashAlg

    constructor (limit: nat, alg: HashAlg)
      requires limit > 0
      ensures files == map[] && this.limit == limit && this.alg == alg
    {
      this.files, this.limit, this.alg := map[], limit, alg;
    }

    /** streamCopy: write, count and hash chunk after chunk. The outcome is the verdict on the whole stream,
        whatever the chunks were, unless trouble of the copy itself strikes; the file holds a prefix of the
        stream, and all of it on success. */
    method StreamCopy(name: string, calls: seq<Chunk>, trouble: Trouble)
      returns (r: Result<StoredFile, StoreError>)
      requires Ends(calls) && name in files && files[name] == []
      modifies this`files
      ensures files.Keys == old(files).Keys && files == old(files)[name := files[name]]
      ensures files[name] <= Stream(calls) && |files[name]| <= limit
      ensures r.Ok? <==> Judged(alg, calls, limit).Ok? && !StrikesCopy(trouble, calls)
      ensures r == Judged(alg, calls, limit) || (StrikesCopy(trouble, calls) && r in {Err(Cancelled), Err(Unavailable)})
      ensures r.Ok? ==> files[name] == Stream(calls)
      ensures r.Ok? ==> r.value.size == |Stream(calls)| && Hashes(alg, Stream(calls), r.value.hash)
    {
      var hash := alg.init;
      var n := 0;
      var i := 0;
      ghost var sofar: seq<byte> := [];
      assert calls[..0] == [];
      while true
        invariant Delivered(calls, i, sofar)
        invariant |sofar| == n <= limit && hash == Absorb(alg, alg.init, sofar)
        invariant files == old(files)[name := sofar]
        invariant trouble.ctxEnds.Some? ==> trouble.ctxEnds.value >= i
        invariant trouble.writeFails.Some? && trouble.writeFails.value < i ==>
            calls[trouble.writeFails.value].bytes == []
        decreases |calls| - i
      {
        if trouble.ctxEnds.Some? && trouble.ctxEnds.value <= i {
          return Err(Cancelled);
        }
        NextRead(calls, i, sofar);
        var chunk := calls[i];
        var m := |chunk.bytes|;
        if m > 0 {
          if n + m > limit {
            return Err(TooLarge);
          }
          if trouble.writeFails == Some(i) {
            return Err(Unavailable);
          }
          files := files[name := files[name] + chunk.bytes];
          AbsorbChunks(alg, alg.init, sofar, chunk.bytes);
          hash := Absorb(alg, hash, chunk.bytes);
          n := n + m;
        } else {
          assert sofar + chunk.bytes == sofar;
        }
        sofar := sofar + chunk.bytes;
        if chunk.status.Eof? {
          break;
        }
        if chunk.status.ReadFailed? {
          return Err(Reader(chunk.status.error));
        }
        i := i + 1;
      }
      assert sofar == Stream(calls);
      if n == 0 {
        return Err(Empty);
      }
      HashesOnce(alg, sofar, alg.hex(hash));
      return Ok(StoredFile("", n, alg.hex(hash)));
    }

    /** Save: space check, temporary file, copy, close, rename; every failure removes the temporary file.
        The two UUIDs are drawn by the call and fresh. */
    method Save(calls: seq<Chunk>, extension: string, tmpId: string, finalId: string, trouble: Trouble)
      returns (r: Result<StoredFile, StoreError>)
      requires Ends(calls) && Canonical(finalId) && extension != ""
      requires TmpFor(tmpId) !in files && FinalFor(finalId, extension) !in files
      modifies this`files
      ensures r.Ok? ==>
        && r.value == StoredFile(FinalFor(finalId, extension), |Stream(calls)|, Digest(alg, Stream(calls)))
        && files == old(files)[r.value.path := Stream(calls)]
        && FinalName(r.value.path) && 0 < r.value.size <= limit && !calls[|calls| - 1].status.ReadFailed?
      ensures r.Ok? ==>
          r.value.path == finalId + "." + extension && r.value.size == |Stream(calls)|
              && Hashes(alg, Stream(calls), r.value.hash)
      ensures r.Err? && !trouble.removeFails ==> files == old(files)
      ensures r.Err? ==> files - {TmpFor(tmpId)} == old(files)
      ensures r.Ok? <==>
          0 < |Stream(calls)| <= limit && !calls[|calls| - 1].status.ReadFailed? && !Strikes(trouble, calls)
      ensures r.Err? ==>
          r == Judged(alg, calls, limit) || (Strikes(trouble, calls) && r in {Err(Cancelled), Err(Unavailable)})
    {
      NamesApart(finalId, extension);
      VerdictAccepts(alg, Stream(calls), calls[|calls| - 1].status, limit);
      if trouble.spaceLow || trouble.createFails {
        assert files - {TmpFor(tmpId)} == files;
        return Err(Unavailable);
      }
      var tmp := TmpFor(tmpId);
      files := files[tmp := []];
      var copied := StreamCopy(tmp, calls, trouble);
      assert files - {tmp} == old(files);
      if copied.Ok? && trouble.closeFails {
        copied := Err(Unavailable);
      }
      if copied.Err? {
        if !trouble.removeFails {
          files := files - {tmp};
        }
        return copied;
      }
      var final := FinalFor(finalId, extension);
      if trouble.renameFails {
        if !trouble.removeFails {
          files := files - {tmp};
        }
        return Err(Unavailable);
      }
      files := (files - {tmp})[final := files[tmp]];
      return Ok(copied.value.(path := final));
    }

    /** Delete: a name that is not there counts as deleted. */
    method Delete(path: string, removeFails: bool) returns (ok: bool)
      modifies this`files
      ensures ok ==> files == if path == "" then old(files) else old(files) - {path}
      ensures !ok ==> files == old(files) && path in files
      ensures ok <==> path == "" || path !in old(files) || !removeFails
    {
      if path == "" {
        return true;
      }
      if path !in files {
        assert files - {path} == files;
        return true;
      }
      if removeFails {
        return false;
      }
      files := files - {path};
      return true;
    }

    /** ListStored: every name in the directory, once; None when the directory cannot be read. */
    method ListStored(fails: bool) returns (names: Option<seq<string>>)
      ensures names.None? <==> fails
      ensures names.Some? ==> (forall p :: p in names.value <==> p in files)
      ensures names.Some? ==> forall i, j :: 0 <= i < j < |names.value| ==> names.value[i] != names.value[j]
    {
      if fails {
        return None;
      }
      var list: seq<string> := [];
      var rest := files.Keys;
      while rest != {}
        invariant rest <= files.Keys
        invariant forall p :: p in list <==> p in files.Keys - rest
        invariant forall i, j :: 0 <= i < j < |list| ==> list[i] != list[j]
      {
        var p :| p in rest;
        assert p !in list;
        list, rest := list + [p], rest - {p};
      }
      return Some(list);
    }
  }
}
