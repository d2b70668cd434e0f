/** Fixed-width words, byte strings and the few sequence facts the other modules share. */
module Words {
  type byte = x: int | 0 <= x < 0x100
  type u32 = x: int | 0 <= x < 0x1_0000_0000
  type bytes = seq<byte>

  /** Bytes of which only the order matters. */
  type Payload = seq<bv8>

  datatype Option<+T> = None | Some(value: T)

  /** A stream, client, container, connection or request identifier. */
  datatype Id = Id(name: bytes)

  /** Go's conversion of an integer to uint32: the low 32 bits. */
  function ToU32(x: int): u32 {
    if 0 <= x < 0x1_0000_0000 then x else x % 0x1_0000_0000
  }

  lemma NextU32(n: int)
    ensures ToU32(ToU32(n) + 1) == ToU32(n + 1)
  {
    var m := 0x1_0000_0000;
    var q := n / m;
    assert n == m * q + ToU32(n);
    if ToU32(n) + 1 == m {
      assert n + 1 == m * (q + 1);
    } else {
      assert n + 1 == m * q + (ToU32(n) + 1);
    }
  }

  function Concat<T>(parts: seq<seq<T>>): seq<T> {
    if parts == [] then [] else parts[0] + Concat(parts[1..])
  }

  lemma {:induction false} ConcatSplit<T>(a: seq<seq<T>>, b: seq<seq<T>>)
    ensures Concat(a + b) == Concat(a) + Concat(b)
  {
    if a == [] {
      assert a + b == b;
    } else {
      assert (a + b)[1..] == a[1..] + b;
      ConcatSplit(a[1..], b);
    }
  }

  lemma ConcatSnoc<T>(a: seq<seq<T>>, x: seq<T>)
    ensures Concat(a + [x]) == Concat(a) + x
  {
    ConcatSplit(a, [x]);
    assert Concat([x]) == x + Concat([]);
  }
}
