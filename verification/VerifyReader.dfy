/**
  The verifying reader: passes a source through while hashing it, checks its
  size and digest, and latches the verdict.
 */
module VerifyReader {
  import opened Common
  import opened Sets

  type Byte(!new)
  type Digest(==, !new)

  /** How a source read ends: more to come, the end of the source, or an error of the source's own. */
  datatype End = More | EndOfSource | Broken

  /** What one read of the source returns. */
  datatype Chunk = Chunk(data: seq<Byte>, end: End)

  datatype Error = Eof | SizeMismatch | HashMismatch | SourceError

  datatype Options = Options(size: Option<nat>, expected: Option<Digest>)

  function Content(cs: seq<Chunk>): seq<Byte> {
    if cs == [] then [] else cs[0].data + Content(cs[1..])
  }

  lemma {:induction false} ContentGrows(a: seq<Chunk>, c: Chunk)
    ensures Content(a + [c]) == Content(a) + c.data
    decreases |a|
  {
    if a == [] {
      assert a + [c] == [c];
      assert Content([c]) == c.data + Content([c][1..]);
    } else {
      ContentGrows(a[1..], c);
      assert (a + [c])[1..] == a[1..] + [c];
    }
  }

  lemma {:induction false} ContentPrefix(cs: seq<Chunk>, n: nat)
    requires n <= |cs|
    ensures Content(cs[..n]) <= Content(cs)
    decreases |cs| - n
  {
    if n == |cs| {
      WholePrefix(cs);
    } else {
      PrefixGrows(cs, n);
      ContentGrows(cs[..n], cs[n]);
      ContentPrefix(cs, n + 1);
    }
  }

  /** A source that ends: every chunk but the last has more after it. */
  ghost predicate Ends(cs: seq<Chunk>) {
    cs != [] && cs[|cs| - 1].end == EndOfSource && forall i :: 0 <= i < |cs| - 1 ==> cs[i].end == More
  }

  /** The verdict on a whole source, size before digest. */
  function Verdict(o: Options, hash: seq<Byte> -> Digest, content: seq<Byte>): Error {
    if o.size.Some? && |content| != o.size.value then SizeMismatch
    else if o.expected.Some? && hash(content) != o.expected.value then HashMismatch
    else Eof
  }

  class Reader {
    const o: Options
    const hash: seq<Byte> -> Digest
    ghost const source: seq<Chunk>
    ghost var taken: nat            // chunks read from the source
    ghost var delivered: seq<Byte>  // bytes handed to the caller
    var rest: seq<Chunk>
    var hashed: seq<Byte>           // what the hash has been given
    var bytesRead: nat
    var done: bool
    var finalErr: Option<Error>
    var sum: Option<Digest>

    ghost predicate Valid()
      reads this
    {
      && taken <= |source| && rest == source[taken..]
      && delivered == hashed && |hashed| == bytesRead
      && hashed <= Content(source)
      && (o.size.Some? ==> bytesRead <= o.size.value)
      && (finalErr == None ==> hashed == Content(source[..taken]))
      && (finalErr.Some? ==> finalErr.value == SizeMismatch || finalErr.value == HashMismatch)
      && (done ==> taken > 0 && source[taken - 1].end == EndOfSource && hashed == Content(source[..taken]))
      && (done ==> Verdict(o, hash, hashed) == if finalErr.Some? then finalErr.value else Eof)
      && (done && finalErr == None ==> sum == Some(hash(hashed)))
      && (!done && finalErr.Some? ==>
            o.size.Some? && finalErr.value == SizeMismatch && |Content(source[..taken])| > o.size.value)
    }

    constructor (src: seq<Chunk>, hash: seq<Byte> -> Digest, o: Options)
      ensures Valid() && source == src && this.o == o && this.hash == hash
      ensures taken == 0 && !done && finalErr == None
    {
      this.o, this.hash, source, rest := o, hash, src, src;
      taken, delivered, hashed, bytesRead := 0, [], [], 0;
      done, finalErr, sum := false, None, None;
    }

    /**
      One Read. What it delivers is what it hashed; a latched error or the end
      comes back again without touching the source.
     */
    method Read() returns (data: seq<Byte>, err: Option<Error>)
      requires Valid() && (finalErr == None && !done ==> rest != [])
      modifies this
      ensures Valid() && delivered == old(delivered) + data
      ensures old(finalErr).Some? ==> data == [] && err == old(finalErr) && taken == old(taken)
      ensures old(finalErr) == None && old(done) ==> data == [] && err == Some(Eof) && taken == old(taken)
      ensures old(finalErr).Some? || old(done) ==> finalErr == old(finalErr) && done == old(done) && sum == old(sum)
      ensures old(finalErr) == None && !old(done) ==> taken == old(taken) + 1
      ensures finalErr.Some? ==> err == finalErr
      ensures finalErr == None && done ==> err == Some(Eof)
      ensures finalErr == None && !done ==>
                err == if source[old(taken)].end == Broken then Some(SourceError) else None
      ensures !old(done) && old(finalErr) == None && finalErr == None ==>
                (done <==> source[old(taken)].end == EndOfSource)
    {
      if finalErr.Some? {
        return [], finalErr;
      }
      if done {
        return [], Some(Eof);
      }
      var c := rest[0];
      PrefixGrows(source, taken);
      ContentGrows(source[..taken], c);
      ContentPrefix(source, taken + 1);
      rest, taken := rest[1..], taken + 1;
      if |c.data| > 0 {
        if o.size.Some? && bytesRead + |c.data| > o.size.value {
          finalErr := Some(SizeMismatch);
          return [], finalErr;
        }
        hashed := hashed + c.data;
        bytesRead := bytesRead + |c.data|;
      }
      delivered := delivered + c.data;
      if c.end == EndOfSource {
        Finish();
        return c.data, if finalErr.Some? then finalErr else Some(Eof);
      }
      return c.data, if c.end == Broken then Some(SourceError) else None;
    }

    /** The end of the source: the size is checked before the digest. */
    method Finish()
      requires Valid() && !done && finalErr == None && taken > 0 && source[taken - 1].end == EndOfSource
      modifies `done, `finalErr, `sum
      ensures Valid() && done
    {
      done := true;
      if o.size.Some? && bytesRead != o.size.value {
        finalErr := Some(SizeMismatch);
        return;
      }
      sum := Some(hash(hashed));
      if o.expected.Some? && sum != o.expected {
        finalErr := Some(HashMismatch);
      }
    }

    /** Sum: the digest, once the source was read to its end without error. */
    function Sum(): (r: Option<Digest>)
      requires Valid()
      reads this
      ensures r.Some? ==> r.value == hash(Content(source[..taken])) && taken > 0 && source[taken - 1].end == EndOfSource
    {
      if !done || finalErr.Some? then None else sum
    }

    /**
      Reading to the end: however the source is chunked, the verdict is that on
      its whole content. What was delivered is a prefix of it no longer than
      the size, all of it on success, and only then is there a sum: its digest.
     */
    method ReadAll() returns (verdict: Error)
      requires Valid() && taken == 0 && !done && finalErr == None && Ends(source)
      modifies this
      ensures Valid()
      ensures verdict == SizeMismatch <==> o.size.Some? && |Content(source)| != o.size.value
      ensures verdict == Eof <==>
              (o.size == None || o.size == Some(|Content(source)|))
              && (o.expected == None || o.expected == Some(hash(Content(source))))
      ensures verdict != SourceError
      ensures delivered <= Content(source) && (o.size.Some? ==> |delivered| <= o.size.value)
      ensures verdict == Eof ==> delivered == Content(source)
      ensures Sum() == if verdict == Eof then Some(hash(Content(source))) else None
    {
      while true
        invariant Valid() && finalErr == None && !done && taken < |source|
        decreases |source| - taken
      {
        var data, err := Read();
        if err.Some? {
          if done {
            assert taken == |source|;
            WholePrefix(source);
          } else {
            ContentPrefix(source, taken);
          }
          return err.value;
        }
      }
    }
  }
}
