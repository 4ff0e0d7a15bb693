/** Little-endian records of unsigned fields: Python's `struct.pack("<...")` and `struct.unpack("<...")`. */
module Packing {
  type Byte = b: int | 0 <= b < 256
  type Bytes = seq<Byte>

  /** 256 to the power `width`: the first value that `width` bytes cannot hold. */
  function Span(width: nat): (span: nat)
    ensures span >= 1
  {
    if width == 0 then 1 else 256 * Span(width - 1)
  }

  function PackInt(value: nat, width: nat): (bytes: Bytes)
    ensures |bytes| == width
  {
    if width == 0 then [] else [value % 256] + PackInt(value / 256, width - 1)
  }

  function UnpackInt(bytes: Bytes): (value: nat)
    ensures value < Span(|bytes|)
  {
    if bytes == [] then 0 else bytes[0] + 256 * UnpackInt(bytes[1..])
  }

  lemma {:induction false} UnpackPackInt(value: nat, width: nat)
    requires value < Span(width)
    ensures UnpackInt(PackInt(value, width)) == value
  {
    if width > 0 {
      UnpackPackInt(value / 256, width - 1);
      assert PackInt(value, width)[1..] == PackInt(value / 256, width - 1);
    }
  }

  lemma {:induction false} PackUnpackInt(bytes: Bytes)
    ensures PackInt(UnpackInt(bytes), |bytes|) == bytes
  {
    if bytes != [] {
      PackUnpackInt(bytes[1..]);
      var rest := UnpackInt(bytes[1..]);
      var value := bytes[0] + 256 * rest;
      assert value % 256 == bytes[0] && value / 256 == rest;
      assert PackInt(value, |bytes|) == [bytes[0]] + PackInt(rest, |bytes| - 1);
    }
  }

  /** How many bytes a record with fields of these widths takes. */
  function Size(widths: seq<nat>): nat {
    if widths == [] then 0 else widths[0] + Size(widths[1..])
  }

  lemma {:induction false} SizeConcat(a: seq<nat>, b: seq<nat>)
    ensures Size(a + b) == Size(a) + Size(b)
  {
    if a == [] {
      assert a + b == b;
    } else {
      SizeConcat(a[1..], b);
      assert (a + b)[1..] == a[1..] + b;
    }
  }

  function Repeat(count: nat, width: nat): (widths: seq<nat>)
    ensures |widths| == count && forall i :: 0 <= i < count ==> widths[i] == width
  {
    seq(count, _ => width)
  }

  lemma {:induction false} SizeOfRepeat(count: nat, width: nat)
    ensures Size(Repeat(count, width)) == count * width
  {
    if count > 0 {
      SizeOfRepeat(count - 1, width);
      assert Repeat(count, width)[1..] == Repeat(count - 1, width);
      assert count * width == width + (count - 1) * width;
    }
  }

  lemma SizeRepeat(before: seq<nat>, count: nat, width: nat)
    ensures Size(before + Repeat(count, width)) == Size(before) + count * width
  {
    SizeConcat(before, Repeat(count, width));
    SizeOfRepeat(count, width);
  }

  ghost predicate Fits(widths: seq<nat>, values: seq<nat>) {
    |values| == |widths| && forall i :: 0 <= i < |widths| ==> values[i] < Span(widths[i])
  }

  function Pack(widths: seq<nat>, values: seq<nat>): (bytes: Bytes)
    requires |values| == |widths|
    ensures |bytes| == Size(widths)
  {
    if widths == [] then [] else PackInt(values[0], widths[0]) + Pack(widths[1..], values[1..])
  }

  function Unpack(widths: seq<nat>, bytes: Bytes): (values: seq<nat>)
    requires |bytes| == Size(widths)
    ensures Fits(widths, values)
  {
    if widths == [] then [] else
      var rest := Unpack(widths[1..], bytes[widths[0]..]);
      var values := [UnpackInt(bytes[..widths[0]])] + rest;
      assert forall i :: 0 < i < |widths| ==> values[i] == rest[i - 1] && widths[i] == widths[1..][i - 1];
      values
  }

  lemma {:induction false} UnpackPack(widths: seq<nat>, values: seq<nat>)
    requires Fits(widths, values)
    ensures Unpack(widths, Pack(widths, values)) == values
  {
    if widths != [] {
      var bytes := Pack(widths, values);
      assert bytes[..widths[0]] == PackInt(values[0], widths[0]);
      assert bytes[widths[0]..] == Pack(widths[1..], values[1..]);
      assert values[0] < Span(widths[0]);
      UnpackPackInt(values[0], widths[0]);
      assert forall i :: 0 <= i < |widths| - 1 ==> values[1..][i] == values[i + 1] && widths[1..][i] == widths[i + 1];
      UnpackPack(widths[1..], values[1..]);
    }
  }

  lemma {:induction false} PackUnpack(widths: seq<nat>, bytes: Bytes)
    requires |bytes| == Size(widths)
    ensures Pack(widths, Unpack(widths, bytes)) == bytes
  {
    if widths != [] {
      PackUnpackInt(bytes[..widths[0]]);
      PackUnpack(widths[1..], bytes[widths[0]..]);
      var values := Unpack(widths, bytes);
      assert values[1..] == Unpack(widths[1..], bytes[widths[0]..]);
      assert bytes == bytes[..widths[0]] + bytes[widths[0]..];
    } else {
      assert bytes == [];
    }
  }
}
