/** The symbol table `brick_conversion` and the conversions between text and
    codes. The source names them from the bricks' side: `encode` turns a string
    into bricks, `decode` turns bricks back into a string. */
module Symbols {
  import opened Results
  import opened Rules

  /** `brick_conversion`: `\` falls left, `|` stands, `/` falls right. */
  const BrickConversion: map<char, Code> := map['\\' := 0, '|' := 1, '/' := 2]

  /** Every character of `s` is a key of the symbol table. */
  predicate ValidSymbols(s: string)
  {
    forall i :: 0 <= i < |s| ==> s[i] in BrickConversion
  }

  /** `k` is the position of the first character of `s` the table does not know. */
  ghost predicate FirstUnknown(s: string, k: int)
  {
    0 <= k < |s| && s[k] !in BrickConversion && ValidSymbols(s[..k])
  }

  /** The inverse table `inv_brick_conversion`, looked up at one code. */
  function InvBrickConversion(code: Code): (symbol: char)
    ensures symbol in BrickConversion && BrickConversion[symbol] == code
  {
    if code == 0 then '\\' else if code == 1 then '|' else '/'
  }

  /** `encode`: one code per character, in order; the first character missing
      from the table raises KeyError with that character as key. */
  function Encode(s: string): (r: Result<seq<Code>>)
    ensures r.Ok? <==> ValidSymbols(s)
    ensures r.Ok? ==> |r.value| == |s| &&
                      forall i :: 0 <= i < |s| ==> r.value[i] == BrickConversion[s[i]]
    ensures r.Err? ==> exists k :: FirstUnknown(s, k) && r.error == KeyError([s[k]])
  {
    if s == [] then Ok([])
    else if s[0] !in BrickConversion then
      assert FirstUnknown(s, 0);
      Err(KeyError([s[0]]))
    else
      match Encode(s[1..])
      case Err(e) =>
        ghost var k :| FirstUnknown(s[1..], k) && e == KeyError([s[1..][k]]);
        assert s[..k + 1] == [s[0]] + s[1..][..k];
        assert FirstUnknown(s, k + 1);
        Err(e)
      case Ok(rest) => Ok([BrickConversion[s[0]]] + rest)
  }

  /** `decode`: one symbol per code, in order, read through the inverse table. */
  function Decode(codes: seq<Code>): (r: string)
    ensures |r| == |codes| && ValidSymbols(r)
    ensures forall i :: 0 <= i < |codes| ==> BrickConversion[r[i]] == codes[i]
  {
    seq(|codes|, i requires 0 <= i < |codes| => InvBrickConversion(codes[i]))
  }

  /** The table is a bijection: its inverse undoes it. */
  lemma InverseOfTable(c: char)
    requires c in BrickConversion
    ensures InvBrickConversion(BrickConversion[c]) == c
  {
  }

  /** Text over the three symbols survives encoding then decoding, at every length. */
  lemma DecodeEncode(s: string)
    requires ValidSymbols(s)
    ensures Encode(s).Ok? && Decode(Encode(s).value) == s
  {
    var t := Decode(Encode(s).value);
    forall i | 0 <= i < |s| ensures t[i] == s[i] {
      InverseOfTable(s[i]);
    }
  }

  /** Codes survive decoding then encoding. */
  lemma EncodeDecode(codes: seq<Code>)
    ensures Encode(Decode(codes)) == Ok(codes)
  {
    var r := Encode(Decode(codes));
    assert r.value == codes;
  }

  /** A string is rejected exactly when it holds a character outside the table,
      and the error names the first such character. */
  lemma EncodeRejects(s: string, k: int)
    requires FirstUnknown(s, k)
    ensures Encode(s) == Err(KeyError([s[k]]))
  {
    var r := Encode(s);
    assert !ValidSymbols(s);
    var j :| FirstUnknown(s, j) && r.error == KeyError([s[j]]);
    assert j == k;
  }
}
