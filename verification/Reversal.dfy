/** What reversing a file means: on its bytes, block by block, and on its lines. */
module Reversal {

  const BLOCK := 1024

  function Reverse(s: string): (r: string)
    ensures |r| == |s|
  {
    if s == [] then [] else Reverse(s[1..]) + [s[0]]
  }

  lemma {:induction false} ReverseAt(s: string, k: nat)
    requires k < |s|
    ensures Reverse(s)[k] == s[|s| - 1 - k]
  {
    if k == |s| - 1 {
    } else {
      ReverseAt(s[1..], k);
    }
  }

  lemma {:induction false} ReverseConcat(a: string, b: string)
    ensures Reverse(a + b) == Reverse(b) + Reverse(a)
  {
    if a == [] {
      assert a + b == b;
    } else {
      ReverseConcat(a[1..], b);
      assert (a + b)[1..] == a[1..] + b;
    }
  }

  /** Reversing twice restores the file. */
  lemma ReverseTwice(s: string)
    ensures Reverse(Reverse(s)) == s
  {
    forall k | 0 <= k < |s| ensures Reverse(Reverse(s))[k] == s[k] {
      ReverseAt(Reverse(s), k);
      ReverseAt(s, |s| - 1 - k);
    }
  }

  // ----- Block by block -----

  /** The state at the head of the loop: the bytes not yet copied and the output. */
  datatype Copy = Copy(left: nat, out: string)

  function BlockSize(left: nat): nat {
    if left >= BLOCK then BLOCK else left
  }

  /** One iteration: the last block of what is left, reversed, goes to the output. */
  function NextBlock(data: string, c: Copy): Copy
    requires c.left <= |data|
  {
    var rest := c.left - BlockSize(c.left);
    Copy(rest, c.out + Reverse(data[rest..c.left]))
  }

  function Iterate(data: string, k: nat): (c: Copy)
    ensures c.left <= |data|
  {
    if k == 0 then Copy(|data|, "") else NextBlock(data, Iterate(data, k - 1))
  }

  /** At every loop head the output is the reverse of the suffix already consumed. */
  lemma {:induction false} LoopHead(data: string, k: nat)
    ensures var c := Iterate(data, k);
            && c.left == (if k * BLOCK >= |data| then 0 else |data| - k * BLOCK)
            && c.out == Reverse(data[c.left..])
  {
    if k == 0 {
      assert data[|data|..] == [];
    } else {
      LoopHead(data, k - 1);
      var c, c' := Iterate(data, k - 1), Iterate(data, k);
      assert data[c'.left..] == data[c'.left..c.left] + data[c.left..];
      ReverseConcat(data[c'.left..c.left], data[c.left..]);
    }
  }

  /** The block copy has produced the whole reversed file exactly from iteration
      ceil(length / 1024) on. */
  lemma BlocksDone(data: string, k: nat)
    ensures Iterate(data, k).out == Reverse(data) <==> k >= (|data| + BLOCK - 1) / BLOCK
    ensures k >= (|data| + BLOCK - 1) / BLOCK ==> Iterate(data, k) == Copy(0, Reverse(data))
  {
    LoopHead(data, k);
    assert data[0..] == data;
  }

  /** After that the loop, which never ends, changes nothing. */
  lemma {:induction false} BlocksStay(data: string, k: nat, more: nat)
    requires k >= (|data| + BLOCK - 1) / BLOCK
    ensures Iterate(data, k + more) == Iterate(data, k)
  {
    BlocksDone(data, k);
    BlocksDone(data, k + more);
  }

  // ----- Line by line -----

  /** The lines of a text; a newline at the end starts one more, empty line. */
  function Lines(s: string): (ls: seq<string>)
    ensures ls != []
  {
    if s == [] then [[]]
    else
      var rest := Lines(s[1..]);
      if s[0] == '\n' then [[]] + rest else [[s[0]] + rest[0]] + rest[1..]
  }

  function Unlines(ls: seq<string>): string
    requires ls != []
  {
    if |ls| == 1 then ls[0] else ls[0] + "\n" + Unlines(ls[1..])
  }

  /** A picture upside down and right to left. */
  function Rotate(ls: seq<string>): (r: seq<string>)
    ensures |r| == |ls|
  {
    if ls == [] then [] else Rotate(ls[1..]) + [Reverse(ls[0])]
  }

  lemma {:induction false} RotateAt(ls: seq<string>, i: nat)
    requires i < |ls|
    ensures Rotate(ls)[i] == Reverse(ls[|ls| - 1 - i])
  {
    if i == |ls| - 1 {
    } else {
      RotateAt(ls[1..], i);
    }
  }

  /** A byte at the end of a text ends its last line, or makes it one longer. */
  function Snoc(ls: seq<string>, c: char): (r: seq<string>)
    requires ls != []
    ensures r != []
  {
    var n := |ls| - 1;
    if c == '\n' then ls + [[]] else ls[..n] + [ls[n] + [c]]
  }

  /** A byte in front starts a line, or makes the first one longer. */
  function Cons(c: char, ls: seq<string>): (r: seq<string>)
    requires ls != []
    ensures r != []
  {
    if c == '\n' then [[]] + ls else [[c] + ls[0]] + ls[1..]
  }

  lemma ConsSnoc(a: char, ls: seq<string>, c: char)
    requires ls != []
    ensures Snoc(Cons(a, ls), c) == Cons(a, Snoc(ls, c))
  {
    var l, r := Snoc(Cons(a, ls), c), Cons(a, Snoc(ls, c));
    assert |l| == |r|;
    if |ls| == 1 && a != '\n' && c != '\n' {
      assert ([a] + ls[0]) + [c] == [a] + (ls[0] + [c]);
    }
    assert forall i :: 0 <= i < |l| ==> l[i] == r[i];
  }

  lemma {:induction false} LinesSnoc(s: string, c: char)
    ensures Lines(s + [c]) == Snoc(Lines(s), c)
  {
    if s == [] {
      assert s + [c] == [c] && [c][1..] == [];
      var empty: string := "";
      assert [c] + empty == [c] == empty + [c];
      assert Lines([c]) == Cons(c, [empty]) == Snoc([empty], c);
    } else {
      LinesSnoc(s[1..], c);
      assert (s + [c])[1..] == s[1..] + [c];
      ConsSnoc(s[0], Lines(s[1..]), c);
    }
  }

  /** Reversing the bytes of a file rotates its picture: the lines come out in reverse order,
      each one reversed. */
  lemma {:induction false} ReverseRotates(s: string)
    ensures Lines(Reverse(s)) == Rotate(Lines(s))
  {
    if s == [] {
      assert Rotate([[]]) == [[]];
    } else {
      ReverseRotates(s[1..]);
      var rest := Lines(s[1..]);
      LinesSnoc(Reverse(s[1..]), s[0]);
      assert Rotate(rest) == Rotate(rest[1..]) + [Reverse(rest[0])];
      if s[0] == '\n' {
        assert ([[]] + rest)[1..] == rest;
      } else {
        var first := [s[0]] + rest[0];
        assert ([first] + rest[1..])[1..] == rest[1..];
        assert first[1..] == rest[0];
      }
    }
  }

  /** Splitting into lines loses nothing. */
  lemma {:induction false} LinesRoundTrip(s: string)
    ensures Unlines(Lines(s)) == s
  {
    if s == [] {
    } else {
      LinesRoundTrip(s[1..]);
      var rest := Lines(s[1..]);
      if s[0] == '\n' {
        assert ([[]] + rest)[1..] == rest;
      } else {
        assert ([[s[0]] + rest[0]] + rest[1..])[1..] == rest[1..];
      }
    }
  }

  /** There is no newline in a line, and splitting is the only way to cut a text into such lines. */
  lemma {:induction false} LinesHaveNoNewline(s: string)
    ensures forall line :: line in Lines(s) ==> '\n' !in line
  {
    if s == [] {
    } else {
      LinesHaveNoNewline(s[1..]);
      var rest := Lines(s[1..]);
      assert rest[0] in rest;
      assert forall line :: line in rest[1..] ==> line in rest;
    }
  }

  lemma {:induction false} LinesOfLine(line: string, s: string)
    requires '\n' !in line
    ensures Lines(line + "\n" + s) == [line] + Lines(s)
    ensures Lines(line) == [line]
  {
    if line == [] {
      assert line + "\n" + s == "\n" + s && ("\n" + s)[1..] == s;
    } else {
      LinesOfLine(line[1..], s);
      assert (line + "\n" + s)[1..] == line[1..] + "\n" + s;
      assert [line[0]] + line[1..] == line;
    }
  }

  lemma {:induction false} LinesAreUnique(ls: seq<string>)
    requires ls != [] && forall line :: line in ls ==> '\n' !in line
    ensures Lines(Unlines(ls)) == ls
  {
    assert ls[0] in ls;
    if |ls| == 1 {
      LinesOfLine(ls[0], []);
    } else {
      LinesAreUnique(ls[1..]);
      LinesOfLine(ls[0], Unlines(ls[1..]));
      assert ls[0] + "\n" + Unlines(ls[1..]) == Unlines(ls);
    }
  }

  /** So the reversed file is the rotated picture, byte for byte. */
  lemma RotatedPicture(s: string)
    ensures Reverse(s) == Unlines(Rotate(Lines(s)))
  {
    LinesRoundTrip(Reverse(s));
    ReverseRotates(s);
  }
}
