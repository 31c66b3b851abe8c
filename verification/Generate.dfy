/**
Credential generation by rejection sampling: random bytes too large to be shared out evenly
are thrown away.
*/
module Generate {
  import opened Wrappers
  import opened Encoding

  /** Bytes below the limit divide evenly among `n` symbols. */
  function Limit(n: nat): nat
    requires 0 < n <= 256
  {
    256 - 256 % n
  }

  /** The symbols the random bytes stand for, skipping rejected bytes. */
  function Drawn(alphabet: Bytes, random: Bytes): Bytes
    requires 0 < |alphabet| <= 256
  {
    if random == [] then []
    else if random[0] < Limit(|alphabet|) then [alphabet[random[0] % |alphabet|]] + Drawn(alphabet, random[1..])
    else Drawn(alphabet, random[1..])
  }

  function Take(bytes: Bytes, n: nat): Bytes {
    if n <= |bytes| then bytes[..n] else bytes
  }

  function Flat(buffers: seq<Bytes>): Bytes {
    if buffers == [] then [] else Flat(buffers[..|buffers| - 1]) + buffers[|buffers| - 1]
  }

  lemma {:induction false} DrawnAppends(alphabet: Bytes, random: Bytes, more: Bytes)
    requires 0 < |alphabet| <= 256
    ensures Drawn(alphabet, random + more) == Drawn(alphabet, random) + Drawn(alphabet, more)
  {
    if random == [] {
      assert random + more == more;
    } else {
      assert (random + more)[1..] == random[1..] + more;
      DrawnAppends(alphabet, random[1..], more);
    }
  }

  /** One more byte: the symbol it stands for, or nothing. */
  lemma DrawnSnoc(alphabet: Bytes, random: Bytes, b: Byte)
    requires 0 < |alphabet| <= 256
    ensures Drawn(alphabet, random + [b]) ==
      Drawn(alphabet, random) + if b < Limit(|alphabet|) then [alphabet[b % |alphabet|]] else []
  {
    DrawnAppends(alphabet, random, [b]);
    assert [b][1..] == [];
    assert Drawn(alphabet, []) == [];
  }

  /** Fill the output from one buffer, stopping once it is long enough. */
  method FillFrom(alphabet: Bytes, length: nat, ghost before: Bytes, begun: Bytes, buffer: Bytes) returns (out: Bytes)
    requires 0 < |alphabet| <= 256 && begun == Drawn(alphabet, before) && |begun| <= length
    ensures out == Take(Drawn(alphabet, before + buffer), length)
  {
    var n := |alphabet|;
    out := begun;
    assert before + buffer[..0] == before;
    for i := 0 to |buffer|
      invariant |out| <= length
      invariant out == Drawn(alphabet, before + buffer[..i])
    {
      if |out| == length {
        assert before + buffer == (before + buffer[..i]) + buffer[i..];
        DrawnAppends(alphabet, before + buffer[..i], buffer[i..]);
        return;
      }
      var b := buffer[i];
      DrawnSnoc(alphabet, before + buffer[..i], b);
      assert before + buffer[..i + 1] == before + buffer[..i] + [b];
      if b < 256 - 256 % n {
        out := out + [alphabet[b % n]];
      }
    }
    assert buffer[..|buffer|] == buffer;
  }

  /**
  Draw `length` symbols, refilling a buffer from the random source as often as needed; None
  when the source runs dry first.
  */
  method Generate(alphabet: Bytes, length: nat, source: seq<Bytes>) returns (secret: Option<Bytes>)
    requires 0 < |alphabet| <= 256
    ensures secret.Some? <==> length <= |Drawn(alphabet, Flat(source))|
    ensures secret.Some? ==> secret.value == Drawn(alphabet, Flat(source))[..length]
  {
    var out: Bytes := [];
    var used := 0;
    while |out| < length
      invariant used <= |source|
      invariant out == Take(Drawn(alphabet, Flat(source[..used])), length)
      decreases |source| - used
    {
      if used == |source| {
        assert source[..used] == source;
        return None;
      }
      assert source[..used + 1][..used] == source[..used];
      out := FillFrom(alphabet, length, Flat(source[..used]), out, source[used]);
      used := used + 1;
    }
    LaterBuffersAppend(alphabet, source, used);
    return Some(out);
  }

  lemma {:induction false} LaterBuffersAppend(alphabet: Bytes, source: seq<Bytes>, used: nat)
    requires 0 < |alphabet| <= 256 && used <= |source|
    ensures Drawn(alphabet, Flat(source[..used])) <= Drawn(alphabet, Flat(source))
    decreases |source|
  {
    if used < |source| {
      var shorter := source[..|source| - 1];
      LaterBuffersAppend(alphabet, shorter, used);
      assert shorter[..used] == source[..used];
      DrawnAppends(alphabet, Flat(shorter), source[|source| - 1]);
    } else {
      assert source[..used] == source;
    }
  }

  // ---- no symbol is favoured ----

  /** No symbol occurs twice. */
  predicate Distinct(alphabet: Bytes) {
    forall i, j :: 0 <= i < j < |alphabet| ==> alphabet[i] != alphabet[j]
  }

  /** The random bytes from which a symbol is drawn. */
  function BytesFor(alphabet: Bytes, symbol: Byte): set<Byte>
    requires 0 < |alphabet| <= 256
  {
    set b: Byte | 0 <= b < 256 && Drawn(alphabet, [b]) == [symbol]
  }

  /** Where block `q` of `n` numbers starts. */
  function Start(n: nat, q: nat): (start: nat)
    ensures start == q * n
  {
    if q == 0 then 0 else Start(n, q - 1) + n
  }

  /** The first `q` numbers that leave remainder `j`: one from each block. */
  function Multiples(n: nat, j: nat, q: nat): (numbers: set<int>)
    requires j < n
    ensures |numbers| == q && forall b :: b in numbers ==> 0 <= b < Start(n, q)
  {
    if q == 0 then {} else Multiples(n, j, q - 1) + {Start(n, q - 1) + j}
  }

  lemma {:induction false} MultiplesAre(n: nat, j: nat, q: nat, b: int)
    requires j < n
    ensures b in Multiples(n, j, q) <==> 0 <= b < Start(n, q) && b % n == j
  {
    if q > 0 {
      MultiplesAre(n, j, q - 1, b);
      var start := Start(n, q - 1);
      assert Start(n, q) == start + n;
      InBlock(n, q - 1, b);
      if start <= b < start + n {
        assert b % n == b - start;
        assert b in Multiples(n, j, q) <==> b == start + j;
      }
    }
  }

  /** In block `k`, the remainder is the distance to its start. */
  lemma InBlock(n: nat, k: nat, b: int)
    requires 0 < n
    ensures Start(n, k) <= b < Start(n, k) + n ==> b % n == b - Start(n, k)
  {
    if Start(n, k) <= b < Start(n, k) + n {
      assert b == (b / n) * n + b % n;
      DivisionIsUnique(n, b / n, b % n, k, b - Start(n, k));
    }
  }

  lemma DivisionIsUnique(n: nat, q: int, r: nat, k: int, t: nat)
    requires r < n && t < n && q * n + r == k * n + t
    ensures q == k && r == t
  {
    Spread(n, k - q);
    Spread(n, q - k);
    assert (k - q) * n == k * n - q * n && (q - k) * n == q * n - k * n;
  }

  lemma Spread(n: nat, d: int)
    ensures d >= 1 ==> d * n >= n
  {}

  lemma OneByteDraws(alphabet: Bytes, b: Byte)
    requires 0 < |alphabet| <= 256
    ensures Drawn(alphabet, [b]) == if b < Limit(|alphabet|) then [alphabet[b % |alphabet|]] else []
  {
    assert [b][1..] == [] && Drawn(alphabet, []) == [];
  }

  /** Every symbol of an alphabet without repetitions is drawn from the same number of bytes. */
  lemma SymbolsAreEquallyLikely(alphabet: Bytes, j: nat)
    requires 0 < |alphabet| <= 256 && Distinct(alphabet) && j < |alphabet|
    ensures |BytesFor(alphabet, alphabet[j])| == 256 / |alphabet|
  {
    hide Drawn;
    var n := |alphabet|;
    var q := 256 / n;
    assert Start(n, q) == Limit(n);
    forall b: int
      ensures b in BytesFor(alphabet, alphabet[j]) <==> b in Multiples(n, j, q)
    {
      MultiplesAre(n, j, q, b);
      if 0 <= b < 256 {
        OneByteDraws(alphabet, b);
      }
    }
    assert BytesFor(alphabet, alphabet[j]) == Multiples(n, j, q);
  }

  lemma RejectedIsEarly(n: nat, b: Byte)
    requires 0 < n <= 256
    ensures b >= Limit(n) ==> b % n < 256 % n
  {
    if b >= Limit(n) {
      assert Start(n, 256 / n) == Limit(n);
      InBlock(n, 256 / n, b);
    }
  }

  /**
  Bytes are thrown away exactly when the alphabet does not divide 256, and each of those would
  have favoured an early symbol: one of the first `256 % n`.
  */
  lemma RejectionIsNeeded(alphabet: Bytes)
    requires 0 < |alphabet| <= 256
    ensures (forall b: Byte :: Drawn(alphabet, [b]) != []) <==> 256 % |alphabet| == 0
    ensures forall b: Byte :: Drawn(alphabet, [b]) == [] ==> b % |alphabet| < 256 % |alphabet|
  {
    hide Drawn;
    forall b: Byte
      ensures Drawn(alphabet, [b]) == [] <==> b >= Limit(|alphabet|)
      ensures b >= Limit(|alphabet|) ==> b % |alphabet| < 256 % |alphabet|
    {
      OneByteDraws(alphabet, b);
      RejectedIsEarly(|alphabet|, b);
    }
    if 256 % |alphabet| != 0 {
      assert Drawn(alphabet, [Limit(|alphabet|)]) == [];
    }
  }
}
