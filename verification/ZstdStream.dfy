/** The staging buffer in front of the compressor (src/cli_zstd_helper/cli_zstd_helper.c). The
    compressor is a byte sink: what it is given comes out of the decompressed file.
  */
module ZstdStreams {
  import opened Bytes

  const CHUNK_SIZE: nat := 16384

  /** How many bytes have been passed on after a block of `len` bytes was written behind `total` others: all the others when the block
      does not fit behind those still staged. */
  function PassedOn(sent: nat, total: nat, len: nat): (r: nat)
    ensures r == sent || r == total
  {
    if total - sent + len > CHUNK_SIZE then total else sent
  }

  class ZstdStream {
    /** The stream as a reader will see it once everything is flushed. */
    ghost var Content: seq<byte>

    const inputBuffer: array<byte>
    var inputSize: nat
    /** The bytes handed to the compressor so far. */
    var sink: seq<byte>

    ghost predicate Valid()
      reads this, inputBuffer
    {
      && inputBuffer.Length == CHUNK_SIZE && inputSize <= CHUNK_SIZE
      && Content == sink + inputBuffer[..inputSize]
    }

    constructor ()
      ensures Valid() && fresh(inputBuffer)
      ensures Content == [] && inputSize == 0 && sink == []
    {
      inputBuffer := new byte[CHUNK_SIZE](_ => 0);
      inputSize := 0;
      sink := [];
      Content := [];
    }

    /** `cli_zstd_write_done`: the compressor takes the staged bytes in pieces of any size. */
    method WriteDone()
      requires Valid()
      modifies this`inputSize, this`sink
      ensures Valid() && inputSize == 0
      ensures sink == Content
    {
      var pos := 0;
      while pos < inputSize
        invariant pos <= inputSize == old(inputSize)
        invariant sink == old(sink) + inputBuffer[..pos]
      {
        var n :| 1 <= n <= inputSize - pos;
        assert inputBuffer[..pos] + inputBuffer[pos..pos + n] == inputBuffer[..pos + n];
        sink := sink + inputBuffer[pos..pos + n];
        pos := pos + n;
      }
      inputSize := 0;
    }

    /** Copies into the buffer behind what is staged. */
    method Stage(data: seq<byte>)
      requires inputBuffer.Length == CHUNK_SIZE && inputSize + |data| <= CHUNK_SIZE
      modifies inputBuffer
      ensures inputBuffer[..] == old(inputBuffer[..inputSize]) + data + old(inputBuffer[inputSize + |data|..])
    {
      for i := 0 to |data|
        invariant inputBuffer[..inputSize] == old(inputBuffer[..inputSize])
        invariant forall k :: 0 <= k < i ==> inputBuffer[inputSize + k] == data[k]
        invariant forall k :: inputSize + i <= k < CHUNK_SIZE ==> inputBuffer[k] == old(inputBuffer[k])
      {
        inputBuffer[inputSize + i] := data[i];
      }
    }

    /** `cli_zstd_write` of formatted text. Text shorter than the buffer is appended whole, and one byte is
        left for the terminator; longer text is cut and the staged size runs past what was stored. */
    method Write(text: seq<byte>)
      requires Valid()
      modifies this, inputBuffer
      ensures |text| < CHUNK_SIZE ==> Valid() && inputSize < CHUNK_SIZE && Content == old(Content) + text
      ensures |text| >= CHUNK_SIZE ==> inputSize == |text| && sink == old(Content)
                                       && inputBuffer[..CHUNK_SIZE - 1] == text[..CHUNK_SIZE - 1] && inputBuffer[CHUNK_SIZE - 1] == 0
    {
      var needed := |text|;
      if needed >= CHUNK_SIZE - inputSize {
        WriteDone();
      }
      var room := CHUNK_SIZE - inputSize - 1;
      var stored := if needed < room then needed else room;
      Stage(text[..stored] + [0]);
      inputSize := inputSize + needed;
      Content := Content + text;
      if |text| < CHUNK_SIZE {
        assert text[..stored] == text;
        assert inputBuffer[..inputSize] == inputBuffer[..][..inputSize];
      }
    }

    /** `cli_zstd_write_bytes`. */
    method WriteBytes(data: seq<byte>)
      requires Valid() && |data| <= CHUNK_SIZE
      modifies this, inputBuffer
      ensures Valid()
      ensures Content == old(Content) + data && |sink| == PassedOn(|old(sink)|, |old(Content)|, |data|)
    {
      if inputSize + |data| > CHUNK_SIZE {
        WriteDone();
      }
      Stage(data);
      inputSize := inputSize + |data|;
      Content := Content + data;
      assert inputBuffer[..inputSize] == inputBuffer[..][..inputSize];
    }
  }
}
