/** The copy functions of cw3 on files with a cursor, in place on their buffers, proved to
    produce what Reversal says. */
module Files {
  import opened Reversal

  /** A stdio stream: its bytes and its position. */
  class File {
    var data: string
    var pos: nat

    constructor (data: string)
      ensures this.data == data && pos == 0
    {
      this.data := data;
      pos := 0;
    }

    /** fseek to the end. */
    method SeekEnd()
      modifies this`pos
      ensures pos == |data|
    {
      pos := |data|;
    }

    /** fseek from the start. */
    method SeekSet(offset: nat)
      modifies this`pos
      ensures pos == offset
    {
      pos := offset;
    }

    /** fseek from the current position; one before the start fails and changes nothing. */
    method SeekCur(offset: int)
      modifies this`pos
      ensures pos == if old(pos) + offset >= 0 then old(pos) + offset else old(pos)
    {
      if pos + offset >= 0 {
        pos := pos + offset;
      }
    }

    ghost function Available(n: nat): nat
      reads this
    {
      if pos + n <= |data| then n else if pos <= |data| then |data| - pos else 0
    }

    /** fread of n bytes, or fewer at the end of the file. */
    method Read(buffer: array<char>, n: nat)
      requires n <= buffer.Length
      modifies this`pos, buffer
      ensures pos == old(pos) + old(Available(n))
      ensures forall k :: 0 <= k < old(Available(n)) ==> buffer[k] == data[old(pos) + k]
      ensures forall k :: old(Available(n)) <= k < buffer.Length ==> buffer[k] == old(buffer[k])
    {
      var start, count := pos, 0;
      while count < n && start + count < |data|
        invariant count <= n && (start <= |data| ==> start + count <= |data|) && (start > |data| ==> count == 0)
        invariant forall k :: 0 <= k < count ==> buffer[k] == data[start + k]
        invariant forall k :: count <= k < buffer.Length ==> buffer[k] == old(buffer[k])
      {
        buffer[count] := data[start + count];
        count := count + 1;
      }
      pos := start + count;
    }

    /** fwrite of n bytes at the end of the file. */
    method Append(buffer: array<char>, n: nat)
      requires n <= buffer.Length && pos == |data|
      modifies this
      ensures data == old(data) + buffer[..n] && pos == |data|
    {
      data := data + buffer[..n];
      pos := |data|;
    }
  }

  /** Lines 46-48: the byte at position i. */
  method CopyByte(giver: File, receiver: File, byte: array<char>, i: nat)
    requires giver != receiver && byte.Length == 1
    requires i < |giver.data| && receiver.pos == |receiver.data|
    modifies giver`pos, receiver, byte
    ensures receiver.data == old(receiver.data) + [giver.data[i]] && receiver.pos == |receiver.data|
  {
    giver.SeekSet(i);
    giver.Read(byte, 1);
    assert byte[..1] == [giver.data[i]];
    receiver.Append(byte, 1);
  }

  /** reverse_copy: one byte at a time, from the last to the first. */
  method ReverseCopy(giver: File, receiver: File)
    requires giver != receiver && receiver.pos == |receiver.data|
    modifies giver`pos, receiver
    ensures receiver.data == old(receiver.data) + Reverse(giver.data) && receiver.pos == |receiver.data|
  {
    giver.SeekEnd();
    var totalBytesCount: int := giver.pos;
    var byte := new char[1];
    ghost var data, out := giver.data, receiver.data;
    var i: int := totalBytesCount - 1;
    while i >= 0
      invariant -1 <= i < |data| && giver.data == data
      invariant receiver.pos == |receiver.data|
      invariant receiver.data == out + Reverse(data[i + 1..])
    {
      CopyByte(giver, receiver, byte, i);
      assert data[i..][1..] == data[i + 1..];
      i := i - 1;
    }
    assert data[0..] == data;
  }

  /** Lines 75-79: the swap loop on the front of the buffer. */
  method ReverseBuffer(buffer: array<char>, blockSize: nat)
    requires blockSize <= buffer.Length
    modifies buffer
    ensures buffer[..blockSize] == Reverse(old(buffer[..blockSize]))
    ensures buffer[blockSize..] == old(buffer[blockSize..])
  {
    for i := 0 to blockSize / 2
      invariant forall k :: 0 <= k < i ==>
                  buffer[k] == old(buffer[blockSize - k - 1]) && buffer[blockSize - k - 1] == old(buffer[k])
      invariant forall k :: i <= k < blockSize - i ==> buffer[k] == old(buffer[k])
      invariant forall k :: blockSize <= k < buffer.Length ==> buffer[k] == old(buffer[k])
    {
      var temp := buffer[i];
      buffer[i] := buffer[blockSize - i - 1];
      buffer[blockSize - i - 1] := temp;
    }
    ghost var was := old(buffer[..blockSize]);
    forall k | 0 <= k < blockSize ensures buffer[k] == Reverse(was)[k] {
      ReverseAt(was, k);
      assert was[blockSize - 1 - k] == old(buffer[blockSize - k - 1]);
    }
  }

  /** Lines 64-83: one iteration of the block copy. */
  method CopyBlock(giver: File, receiver: File, buffer: array<char>, bytesLeft: nat) returns (left: nat)
    requires giver != receiver && buffer.Length == BLOCK
    requires giver.pos == bytesLeft <= |giver.data| && receiver.pos == |receiver.data|
    modifies giver`pos, receiver, buffer
    ensures giver.pos == left && receiver.pos == |receiver.data|
    ensures Copy(left, receiver.data) == NextBlock(giver.data, Copy(bytesLeft, old(receiver.data)))
  {
    var blockSize: nat;
    if bytesLeft >= BLOCK {
      blockSize := BLOCK;
    } else {
      blockSize := bytesLeft;
    }
    var back: int := blockSize;
    giver.SeekCur(-back);
    giver.Read(buffer, blockSize);
    giver.SeekCur(-back);
    assert buffer[..blockSize] == giver.data[bytesLeft - blockSize..bytesLeft];
    ReverseBuffer(buffer, blockSize);
    receiver.Append(buffer, blockSize);
    left := bytesLeft - blockSize;
  }

  /** reverse_copy_1024buffer for k iterations of its endless loop: at every loop head the
      cursor equals bytesLeft and the output is the reverse of the suffix consumed. */
  method BlockCopy(giver: File, receiver: File, k: nat) returns (bytesLeft: nat)
    requires giver != receiver && receiver.data == "" && receiver.pos == 0
    modifies giver`pos, receiver
    ensures giver.pos == bytesLeft
    ensures Copy(bytesLeft, receiver.data) == Iterate(giver.data, k)
    ensures receiver.data == Reverse(giver.data[bytesLeft..])
    ensures k >= (|giver.data| + BLOCK - 1) / BLOCK <==> receiver.data == Reverse(giver.data)
  {
    var buffer := new char[BLOCK];
    giver.SeekEnd();
    bytesLeft := giver.pos;
    for j := 0 to k
      invariant giver.pos == bytesLeft <= |giver.data| && receiver.pos == |receiver.data|
      invariant Copy(bytesLeft, receiver.data) == Iterate(giver.data, j)
    {
      bytesLeft := CopyBlock(giver, receiver, buffer, bytesLeft);
    }
    LoopHead(giver.data, k);
    BlocksDone(giver.data, k);
  }

  /** The flipper run twice, from one file to a second and on to a third: the second file's
      picture is the first one's rotated, and the third file is the first again. */
  method FlipTwice(first: File, second: File, third: File)
    requires first != second && second != third && first != third
    requires second.data == "" && second.pos == 0 && third.data == "" && third.pos == 0
    modifies first`pos, second, third
    ensures Lines(second.data) == Rotate(Lines(first.data))
    ensures third.data == first.data
  {
    ReverseCopy(first, second);
    assert second.data == Reverse(first.data);
    ReverseRotates(first.data);
    ReverseCopy(second, third);
    assert third.data == Reverse(second.data);
    ReverseTwice(first.data);
  }
}
