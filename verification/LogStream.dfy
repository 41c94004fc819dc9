/** The fixed log buffer and the numeric insertions of LogStream. */
module LogStream {
  import opened StringConverter

  const MAX_NUMERIC_SIZE := 48

  /** Printing after the first n characters leaves these alone. */
  lemma Extended(before: string, after: string, n: nat, number: string)
    requires n + |number| <= |after| == |before|
    requires forall k :: 0 <= k < n ==> after[k] == before[k]
    requires after[n..n + |number|] == number
    ensures after[..n + |number|] == before[..n] + number
  {
    assert after[..n + |number|] == after[..n] + after[n..n + |number|];
  }

  /** FixedBuffer<SIZE>: a text that only grows while it fits. */
  class FixedBuffer {
    const data: array<char>
    var cur: nat

    ghost predicate Valid()
      reads this
    {
      cur <= data.Length
    }

    ghost function Text(): string
      requires Valid()
      reads this, data
    {
      data[..cur]
    }

    constructor (size: nat)
      ensures Valid() && fresh(data) && data.Length == size && Text() == ""
    {
      data := new char[size](_ => '\0');
      cur := 0;
    }

    function Avail(): nat
      requires Valid()
      reads this
    {
      data.Length - cur
    }

    /** All of the text or none of it; one character always stays free. */
    method Append(text: string) returns (ok: bool)
      requires Valid()
      modifies this`cur, data
      ensures Valid()
      ensures ok <==> old(Avail()) > |text|
      ensures Text() == old(Text()) + if ok then text else ""
    {
      ok := Avail() > |text|;
      if ok {
        forall i | 0 <= i < |text| { data[cur + i] := text[i]; }
        assert data[..cur + |text|] == old(Text()) + text;
        cur := cur + |text|;
      }
    }

    /** LogStream::formatInteger: the number is printed in place, or dropped when space is short. */
    method FormatInteger(v: int)
      requires Valid() && (FitsInt64(v) || FitsUInt64(v))
      modifies this`cur, data
      ensures Valid()
      ensures Text() == old(Text()) + if old(Avail()) >= MAX_NUMERIC_SIZE then Decimal(v) else ""
    {
      if Avail() >= MAX_NUMERIC_SIZE {
        Decimal64Length(v);
        ghost var before, number := data[..], Decimal(v);
        var len := Convert(data, cur, v);
        Extended(before, data[..], cur, number);
        cur := cur + len;
      }
    }

    method PutPrefix()
      requires Valid() && cur + 2 <= data.Length
      modifies data
      ensures data[..cur + 2] == old(data[..cur]) + "0x"
    {
      ghost var before := data[..];
      data[cur] := '0';
      data[cur + 1] := 'x';
      assert data[..][cur..cur + 2] == "0x";
      Extended(before, data[..], cur, "0x");
      assert data[..cur + 2] == data[..][..cur + 2];
    }

    method PutHex(start: nat, v: nat) returns (len: nat)
      requires start + |Numeral(v, Sixteen)| < data.Length
      modifies data
      ensures len == |Numeral(v, Sixteen)| && data[..start + len] == old(data[..start]) + Numeral(v, Sixteen)
    {
      ghost var before := data[..];
      len := ConvertHex(data, start, v);
      Extended(before, data[..], start, Numeral(v, Sixteen));
      assert data[..start + len] == data[..][..start + len];
    }

    /** operator<<(const void*): "0x" and the hexadecimal address. */
    method FormatPointer(v: nat)
      requires Valid() && FitsUInt64(v)
      modifies this`cur, data
      ensures Valid()
      ensures Text() == old(Text()) + if old(Avail()) >= MAX_NUMERIC_SIZE then "0x" + Numeral(v, Sixteen) else ""
    {
      if Avail() >= MAX_NUMERIC_SIZE {
        Hex64Length(v);
        ghost var text, number := Text(), Numeral(v, Sixteen);
        PutPrefix();
        var len := PutHex(cur + 2, v);
        assert text + "0x" + number == text + ("0x" + number);
        cur := cur + (len + 2);
      }
    }
  }
}
