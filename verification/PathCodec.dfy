// Packed Uniswap v3 paths: 20-byte tokens with 3-byte fees between them.
//
// The contracts read them with 32-byte loads at byte offsets, from calldata when validating and from memory
// when swapping; what lies behind the path in either buffer is arbitrary.
module PathCodec {
  import opened Evm
  import opened ConstantProduct

  type Byte = b: int | 0 <= b < 256

  const TOKEN_BYTES: nat := 20
  const FEE_BYTES: nat := 3
  const HOP_BYTES: nat := 23
  const MAX_V3_HOPS: nat := 2

  // ---- big-endian numbers ----

  function Pow256(n: nat): nat
    ensures Pow256(n) > 0
  {
    if n == 0 then 1 else 256 * Pow256(n - 1)
  }

  function BigEndian(bytes: seq<Byte>): nat {
    if bytes == [] then 0 else BigEndian(bytes[..|bytes| - 1]) * 256 + bytes[|bytes| - 1]
  }

  /** The last `n` bytes of a number, most significant first. */
  function Bytes(value: nat, n: nat): (r: seq<Byte>)
    ensures |r| == n
  {
    seq<Byte>(n, i requires 0 <= i < n => FloorQuotient(value, Pow256(n - 1 - i)) % 256)
  }

  lemma BytesStep(value: nat, n: nat)
    requires n > 0
    ensures Bytes(value, n) == Bytes(value / 256, n - 1) + [value % 256]
  {
    var longer, shorter := Bytes(value, n), Bytes(value / 256, n - 1);
    forall i | 0 <= i < n ensures longer[i] == (shorter + [value % 256])[i] {
      var k := n - 1 - i;
      assert longer[i] == FloorQuotient(value, Pow256(k)) % 256;
      if i < n - 1 {
        assert Pow256(k) == 256 * Pow256(k - 1);
        QuotientOfQuotient(value, Pow256(k - 1));
        assert shorter[i] == FloorQuotient(value / 256, Pow256(n - 1 - 1 - i)) % 256;
        assert n - 1 - 1 - i == k - 1;
      } else {
        assert k == 0 && Pow256(k) == 1;
        assert FloorQuotient(value, 1) == value by {
          FloorBound(value, 1, value);
          FloorBound(value, 1, value + 1);
        }
      }
    }
  }

  lemma QuotientOfQuotient(value: nat, d: nat)
    requires d > 0
    ensures FloorQuotient(value / 256, d) == FloorQuotient(value, 256 * d)
  {
    var q := FloorQuotient(value, 256 * d);
    FloorBound(value, 256 * d, q);
    FloorBound(value, 256 * d, q + 1);
    FloorBound(value / 256, d, q);
    FloorBound(value / 256, d, q + 1);
    assert q * (256 * d) == 256 * (q * d);
    assert (q + 1) * (256 * d) == 256 * ((q + 1) * d);
  }

  lemma {:induction false} BigEndianBounded(bytes: seq<Byte>)
    ensures BigEndian(bytes) < Pow256(|bytes|)
  {
    if bytes != [] {
      BigEndianBounded(bytes[..|bytes| - 1]);
    }
  }

  lemma {:induction false} BytesThenBigEndian(value: nat, n: nat)
    requires value < Pow256(n)
    ensures BigEndian(Bytes(value, n)) == value
  {
    if n > 0 {
      BytesThenBigEndian(value / 256, n - 1);
      BytesStep(value, n);
      assert Bytes(value, n)[..n - 1] == Bytes(value / 256, n - 1);
    }
  }

  lemma {:induction false} BigEndianThenBytes(bytes: seq<Byte>)
    ensures Bytes(BigEndian(bytes), |bytes|) == bytes
  {
    if bytes != [] {
      BigEndianThenBytes(bytes[..|bytes| - 1]);
      BytesStep(BigEndian(bytes), |bytes|);
    }
  }

  lemma {:induction false} BigEndianConcat(a: seq<Byte>, b: seq<Byte>)
    ensures BigEndian(a + b) == BigEndian(a) * Pow256(|b|) + BigEndian(b)
  {
    if b == [] {
      assert a + b == a;
    } else {
      var n := |b| - 1;
      BigEndianConcat(a, b[..n]);
      assert (a + b)[..|a| + n] == a + b[..n];
      assert BigEndian(a) * Pow256(|b|) == BigEndian(a) * Pow256(n) * 256;
    }
  }

  // ---- reading at an offset ----

  /** The byte a load sees; past the end of the buffer it sees zero. */
  function ByteAt(buffer: seq<Byte>, i: nat): Byte {
    if i < |buffer| then buffer[i] else 0
  }

  function Load(buffer: seq<Byte>, offset: nat, n: nat): (r: seq<Byte>)
    ensures |r| == n
    ensures forall i :: 0 <= i < n ==> r[i] == ByteAt(buffer, offset + i)
  {
    seq<Byte>(n, i requires 0 <= i => ByteAt(buffer, offset + i))
  }

  /** The top `n` bytes of a 32-byte load: a shift right by 8 * (32 - n). */
  function ReadTop(buffer: seq<Byte>, offset: nat, n: nat): nat
    requires n <= 32
  {
    FloorQuotient(BigEndian(Load(buffer, offset, 32)), Pow256(32 - n))
  }

  /** `shr(96, load(offset))`: always an address. */
  function ReadToken(buffer: seq<Byte>, offset: nat): Address {
    ReadTopBounded(buffer, offset, TOKEN_BYTES);
    TokenRange();
    ReadTop(buffer, offset, TOKEN_BYTES)
  }

  /** `shr(232, load(offset))`: always a uint24. */
  function ReadFee(buffer: seq<Byte>, offset: nat): (r: nat)
    ensures r < 0x100_0000
  {
    ReadTopBounded(buffer, offset, FEE_BYTES);
    TokenRange();
    ReadTop(buffer, offset, FEE_BYTES)
  }

  /** The top bytes of a load are the bytes at the offset. */
  lemma ReadTopIs(buffer: seq<Byte>, offset: nat, n: nat)
    requires n <= 32
    ensures ReadTop(buffer, offset, n) == BigEndian(Load(buffer, offset, n))
  {
    var loaded := Load(buffer, offset, 32);
    var top, low := Load(buffer, offset, n), loaded[n..];
    assert loaded == top + low;
    BigEndianConcat(top, low);
    BigEndianBounded(low);
    Quotient(BigEndian(top), BigEndian(low), Pow256(32 - n));
  }

  lemma ReadTopBounded(buffer: seq<Byte>, offset: nat, n: nat)
    requires n <= 32
    ensures ReadTop(buffer, offset, n) < Pow256(n)
  {
    ReadTopIs(buffer, offset, n);
    BigEndianBounded(Load(buffer, offset, n));
  }

  /** A read that stays inside the path sees its bytes and nothing of what follows. */
  lemma ReadInside(path: seq<Byte>, rest: seq<Byte>, offset: nat, n: nat)
    requires offset + n <= |path| && n <= 32
    ensures ReadTop(path + rest, offset, n) == BigEndian(path[offset..offset + n])
  {
    ReadTopIs(path + rest, offset, n);
    assert Load(path + rest, offset, n) == path[offset..offset + n];
  }

  lemma Quotient(q: nat, r: nat, d: nat)
    requires r < d
    ensures FloorQuotient(q * d + r, d) == q
  {
    FloorBound(q * d + r, d, q);
    FloorBound(q * d + r, d, q + 1);
    assert (q + 1) * d == q * d + d;
  }

  lemma TokenRange()
    ensures Pow256(TOKEN_BYTES) == MAX_UINT160 + 1
    ensures Pow256(FEE_BYTES) == 0x100_0000
  {
    assert Pow256(5) == 0x100_0000_0000;
    assert Pow256(10) == 0x1_0000_0000_0000_0000_0000 by { PowSum(5, 5); }
    assert Pow256(20) == MAX_UINT160 + 1 by { PowSum(10, 10); }
  }

  lemma {:induction false} PowSum(a: nat, b: nat)
    ensures Pow256(a + b) == Pow256(a) * Pow256(b)
  {
    if a > 0 {
      PowSum(a - 1, b);
      assert Pow256(a) * Pow256(b) == 256 * (Pow256(a - 1) * Pow256(b));
    }
  }

  /** What follows a path does not matter to reads inside it. */
  lemma TokenInside(path: seq<Byte>, rest: seq<Byte>, offset: nat)
    requires offset + TOKEN_BYTES <= |path|
    ensures ReadToken(path + rest, offset) == ReadToken(path, offset) == BigEndian(path[offset..offset + TOKEN_BYTES])
  {
    ReadInside(path, rest, offset, TOKEN_BYTES);
    ReadInside(path, [], offset, TOKEN_BYTES);
    assert path + [] == path;
  }

  lemma FeeInside(path: seq<Byte>, rest: seq<Byte>, offset: nat)
    requires offset + FEE_BYTES <= |path|
    ensures ReadFee(path + rest, offset) == ReadFee(path, offset) == BigEndian(path[offset..offset + FEE_BYTES])
  {
    ReadInside(path, rest, offset, FEE_BYTES);
    ReadInside(path, [], offset, FEE_BYTES);
    assert path + [] == path;
  }

  // ---- the printer ----

  /** `abi.encodePacked(token, fee, token, ...)`. */
  function PackPath(tokens: seq<Address>, fees: seq<nat>): seq<Byte>
    requires |tokens| == |fees| + 1
  {
    if fees == [] then Bytes(tokens[0], TOKEN_BYTES)
    else
      var n := |fees| - 1;
      PackPath(tokens[..n + 1], fees[..n]) + Bytes(fees[n], FEE_BYTES) + Bytes(tokens[n + 1], TOKEN_BYTES)
  }

  lemma {:induction false} PackLength(tokens: seq<Address>, fees: seq<nat>)
    requires |tokens| == |fees| + 1
    ensures |PackPath(tokens, fees)| == TOKEN_BYTES + HOP_BYTES * |fees|
  {
    if fees != [] {
      PackLength(tokens[..|fees|], fees[..|fees| - 1]);
    }
  }

  /** Where a token and a fee sit in a packed path. */
  lemma {:induction false} PackedSlices(tokens: seq<Address>, fees: seq<nat>, i: nat)
    requires |tokens| == |fees| + 1 && i <= |fees|
    ensures |PackPath(tokens, fees)| == TOKEN_BYTES + HOP_BYTES * |fees|
    ensures PackPath(tokens, fees)[HOP_BYTES * i..HOP_BYTES * i + TOKEN_BYTES] == Bytes(tokens[i], TOKEN_BYTES)
    ensures i < |fees| ==>
              PackPath(tokens, fees)[HOP_BYTES * i + TOKEN_BYTES..HOP_BYTES * (i + 1)] == Bytes(fees[i], FEE_BYTES)
  {
    PackLength(tokens, fees);
    if fees != [] {
      var n := |fees| - 1;
      var front := PackPath(tokens[..n + 1], fees[..n]);
      PackLength(tokens[..n + 1], fees[..n]);
      if i <= n {
        PackedSlices(tokens[..n + 1], fees[..n], i);
        assert PackPath(tokens, fees)[HOP_BYTES * i..HOP_BYTES * i + TOKEN_BYTES]
               == front[HOP_BYTES * i..HOP_BYTES * i + TOKEN_BYTES];
        if i < n {
          assert PackPath(tokens, fees)[HOP_BYTES * i + TOKEN_BYTES..HOP_BYTES * (i + 1)]
                 == front[HOP_BYTES * i + TOKEN_BYTES..HOP_BYTES * (i + 1)];
        }
      }
    }
  }

  lemma PrintedTokenReads(path: seq<Byte>, rest: seq<Byte>, offset: nat, token: Address)
    requires offset + TOKEN_BYTES <= |path| && path[offset..offset + TOKEN_BYTES] == Bytes(token, TOKEN_BYTES)
    ensures ReadToken(path + rest, offset) == token
  {
    TokenRange();
    TokenInside(path, rest, offset);
    BytesThenBigEndian(token, TOKEN_BYTES);
  }

  lemma PrintedFeeReads(path: seq<Byte>, rest: seq<Byte>, offset: nat, fee: nat)
    requires fee < 0x100_0000
    requires offset + FEE_BYTES <= |path| && path[offset..offset + FEE_BYTES] == Bytes(fee, FEE_BYTES)
    ensures ReadFee(path + rest, offset) == fee
  {
    TokenRange();
    FeeInside(path, rest, offset);
    BytesThenBigEndian(fee, FEE_BYTES);
  }

  /** Parsing undoes printing: reads at the contracts' offsets recover every token and fee, whatever lies
      behind the path. */
  lemma ReadsRecoverPacked(tokens: seq<Address>, fees: seq<nat>, rest: seq<Byte>, i: nat)
    requires |tokens| == |fees| + 1 && i <= |fees|
    requires forall k :: 0 <= k < |fees| ==> fees[k] < 0x100_0000
    ensures ReadToken(PackPath(tokens, fees) + rest, HOP_BYTES * i) == tokens[i]
    ensures i < |fees| ==> ReadFee(PackPath(tokens, fees) + rest, HOP_BYTES * i + TOKEN_BYTES) == fees[i]
  {
    PackedSlices(tokens, fees, i);
    PrintedTokenReads(PackPath(tokens, fees), rest, HOP_BYTES * i, tokens[i]);
    if i < |fees| {
      PrintedFeeReads(PackPath(tokens, fees), rest, HOP_BYTES * i + TOKEN_BYTES, fees[i]);
    }
  }

  /** Tokens and fees as the offset reads see them. */
  function Tokens(path: seq<Byte>, hops: nat): (r: seq<Address>)
    ensures |r| == hops + 1
    ensures forall i :: 0 <= i <= hops ==> r[i] == ReadToken(path, HOP_BYTES * i)
  {
    seq<Address>(hops + 1, i requires 0 <= i => ReadToken(path, HOP_BYTES * i))
  }

  function Fees(path: seq<Byte>, hops: nat): (r: seq<nat>)
    ensures |r| == hops
    ensures forall i :: 0 <= i < hops ==> r[i] == ReadFee(path, HOP_BYTES * i + TOKEN_BYTES)
  {
    seq<nat>(hops, i requires 0 <= i => ReadFee(path, HOP_BYTES * i + TOKEN_BYTES))
  }

  lemma Cut(path: seq<Byte>, i: nat, j: nat)
    requires i <= j <= |path|
    ensures path == path[..i] + path[i..j] + path[j..|path|]
  {
  }

  /** The last hop's fee and token, printed, are the bytes they were read from. */
  lemma LastHopPrints(tokens: seq<Address>, fees: seq<nat>, fee: seq<Byte>, token: seq<Byte>)
    requires |tokens| == |fees| + 1 && |fees| > 0 && |fee| == FEE_BYTES && |token| == TOKEN_BYTES
    requires fees[|fees| - 1] == BigEndian(fee) && tokens[|fees|] == BigEndian(token)
    ensures PackPath(tokens, fees) == PackPath(tokens[..|fees|], fees[..|fees| - 1]) + fee + token
  {
    BigEndianThenBytes(fee);
    BigEndianThenBytes(token);
  }

  lemma LastHopReads(path: seq<Byte>, hops: nat, last: nat)
    requires hops > 0 && last == HOP_BYTES * hops && |path| == last + TOKEN_BYTES
    ensures var front := path[..last - FEE_BYTES];
            PackPath(Tokens(path, hops), Fees(path, hops))
            == PackPath(Tokens(front, hops - 1), Fees(front, hops - 1)) + path[last - FEE_BYTES..last]
               + path[last..|path|]
  {
    FrontReads(path, hops);
    TokenInside(path, [], last);
    FeeInside(path, [], last - FEE_BYTES);
    LastHopPrints(Tokens(path, hops), Fees(path, hops), path[last - FEE_BYTES..last], path[last..|path|]);
  }

  lemma OneTokenPath(path: seq<Byte>)
    requires |path| == TOKEN_BYTES
    ensures PackPath(Tokens(path, 0), Fees(path, 0)) == path
  {
    TokenInside(path, [], 0);
    assert path[0..TOKEN_BYTES] == path;
    BigEndianThenBytes(path);
  }

  /** Printing undoes parsing: every byte string of a path's length is the packing of what its reads see. */
  lemma {:induction false} PackedReadsRecover(path: seq<Byte>, hops: nat)
    requires |path| == TOKEN_BYTES + HOP_BYTES * hops
    ensures PackPath(Tokens(path, hops), Fees(path, hops)) == path
  {
    if hops == 0 {
      OneTokenPath(path);
    } else {
      var last := HOP_BYTES * hops;
      PackedReadsRecover(path[..last - FEE_BYTES], hops - 1);
      LastHopReads(path, hops, last);
      Cut(path, last - FEE_BYTES, last);
    }
  }

  lemma FrontReads(path: seq<Byte>, hops: nat)
    requires hops > 0 && |path| == TOKEN_BYTES + HOP_BYTES * hops
    ensures var front := path[..HOP_BYTES * hops - FEE_BYTES];
            && Tokens(path, hops)[..hops] == Tokens(front, hops - 1)
            && Fees(path, hops)[..hops - 1] == Fees(front, hops - 1)
  {
    var front := path[..HOP_BYTES * hops - FEE_BYTES];
    var rest := path[HOP_BYTES * hops - FEE_BYTES..];
    assert front + rest == path;
    forall i | 0 <= i < hops ensures Tokens(path, hops)[i] == Tokens(front, hops - 1)[i] {
      TokenInside(front, rest, HOP_BYTES * i);
    }
    forall i | 0 <= i < hops - 1 ensures Fees(path, hops)[i] == Fees(front, hops - 1)[i] {
      FeeInside(front, rest, HOP_BYTES * i + TOKEN_BYTES);
    }
  }

  // ---- the validator ----

  type Factory = (Address, Address, nat) -> Address

  predicate AllowedFee(fee: nat) { fee == 100 || fee == 500 || fee == 3000 || fee == 10000 }

  const ALLOWED_FEES: set<nat> := {100, 500, 3000, 10000}

  predicate HopOk(factory: Factory, tokenIn: Address, tokenOut: Address, fee: nat) {
    AllowedFee(fee) && tokenOut != ZERO && tokenOut != tokenIn && factory(tokenIn, tokenOut, fee) != ZERO
  }

  predicate IsDirect(factory: Factory, path: seq<Byte>, start: Address, end: Address) {
    exists fee :: fee in ALLOWED_FEES && path == PackPath([start, end], [fee]) && HopOk(factory, start, end, fee)
  }

  predicate IsBridged(factory: Factory, bridge: Address, path: seq<Byte>, start: Address, end: Address) {
    exists fee, fee' ::
      fee in ALLOWED_FEES && fee' in ALLOWED_FEES && path == PackPath([start, bridge, end], [fee, fee'])
      && HopOk(factory, start, bridge, fee) && HopOk(factory, bridge, end, fee')
  }

  /** What a route's v3 path must be: nothing between equal endpoints, one pool, or the fixed bridge. */
  predicate PathOk(factory: Factory, bridge: Address, path: seq<Byte>, start: Address, end: Address) {
    if start == end then path == []
    else IsDirect(factory, path, start, end) || IsBridged(factory, bridge, path, start, end)
  }

  /** The hop checks the loop makes, from hop `index` on. */
  predicate HopsOkFrom(factory: Factory, bridge: Address, tokens: seq<Address>, fees: seq<nat>, index: nat)
    requires |tokens| == |fees| + 1 && index <= |fees|
    decreases |fees| - index
  {
    index < |fees| ==>
      && HopOk(factory, tokens[index], tokens[index + 1], fees[index])
      && (|fees| == 2 && index == 0 ==> tokens[1] == bridge)
      && HopsOkFrom(factory, bridge, tokens, fees, index + 1)
  }

  predicate LengthOk(path: seq<Byte>) {
    43 <= |path| <= TOKEN_BYTES + HOP_BYTES * MAX_V3_HOPS && (|path| - TOKEN_BYTES) % HOP_BYTES == 0
  }

  /** What the validator computes. */
  predicate CheckPath(factory: Factory, bridge: Address, path: seq<Byte>, start: Address, end: Address) {
    if start == end then path == []
    else
      && LengthOk(path)
      && var hops := (|path| - TOKEN_BYTES) / HOP_BYTES;
      && Tokens(path, hops)[0] == start
      && Tokens(path, hops)[hops] == end
      && HopsOkFrom(factory, bridge, Tokens(path, hops), Fees(path, hops), 0)
  }

  /** The reads of a packed path, all at once. */
  lemma PackedIsRead(tokens: seq<Address>, fees: seq<nat>)
    requires |tokens| == |fees| + 1
    requires forall k :: 0 <= k < |fees| ==> fees[k] < 0x100_0000
    ensures |PackPath(tokens, fees)| == TOKEN_BYTES + HOP_BYTES * |fees|
    ensures Tokens(PackPath(tokens, fees), |fees|) == tokens && Fees(PackPath(tokens, fees), |fees|) == fees
  {
    var path := PackPath(tokens, fees);
    PackLength(tokens, fees);
    assert path + [] == path;
    forall i | 0 <= i <= |fees|
      ensures Tokens(path, |fees|)[i] == tokens[i] && (i < |fees| ==> Fees(path, |fees|)[i] == fees[i])
    {
      ReadsRecoverPacked(tokens, fees, [], i);
    }
  }

  lemma DirectIsChecked(factory: Factory, bridge: Address, start: Address, end: Address, fee: nat)
    requires start != end && HopOk(factory, start, end, fee)
    ensures CheckPath(factory, bridge, PackPath([start, end], [fee]), start, end)
  {
    PackedIsRead([start, end], [fee]);
  }

  lemma BridgedIsChecked(factory: Factory, bridge: Address, start: Address, end: Address, fee: nat, fee': nat)
    requires start != end && HopOk(factory, start, bridge, fee) && HopOk(factory, bridge, end, fee')
    ensures CheckPath(factory, bridge, PackPath([start, bridge, end], [fee, fee']), start, end)
  {
    var tokens, fees := [start, bridge, end], [fee, fee'];
    PackedIsRead(tokens, fees);
    assert HopsOkFrom(factory, bridge, tokens, fees, 1);
  }

  lemma CheckedIsDirect(factory: Factory, bridge: Address, path: seq<Byte>, start: Address, end: Address)
    requires start != end && CheckPath(factory, bridge, path, start, end) && |path| == TOKEN_BYTES + HOP_BYTES
    ensures IsDirect(factory, path, start, end)
  {
    PackedReadsRecover(path, 1);
    var tokens, fees := Tokens(path, 1), Fees(path, 1);
    assert tokens == [start, end] && fees == [fees[0]];
    assert fees[0] in ALLOWED_FEES;
  }

  lemma CheckedIsBridged(factory: Factory, bridge: Address, path: seq<Byte>, start: Address, end: Address)
    requires start != end && CheckPath(factory, bridge, path, start, end) && |path| == TOKEN_BYTES + HOP_BYTES * 2
    ensures IsBridged(factory, bridge, path, start, end)
  {
    PackedReadsRecover(path, 2);
    var tokens, fees := Tokens(path, 2), Fees(path, 2);
    assert HopsOkFrom(factory, bridge, tokens, fees, 1);
    assert tokens == [start, bridge, end] && fees == [fees[0], fees[1]];
    assert fees[0] in ALLOWED_FEES && fees[1] in ALLOWED_FEES;
  }

  /** The validator accepts a byte string exactly when it is empty between equal endpoints, the packing of
      one existing pool with an allowed fee, or the packing of two such pools through the fixed bridge. */
  lemma CheckPathIsPathOk(factory: Factory, bridge: Address, path: seq<Byte>, start: Address, end: Address)
    ensures CheckPath(factory, bridge, path, start, end) <==> PathOk(factory, bridge, path, start, end)
  {
    if start != end {
      if CheckPath(factory, bridge, path, start, end) {
        if |path| == TOKEN_BYTES + HOP_BYTES {
          CheckedIsDirect(factory, bridge, path, start, end);
        } else {
          CheckedIsBridged(factory, bridge, path, start, end);
        }
      } else if IsDirect(factory, path, start, end) {
        var fee :| fee in ALLOWED_FEES && path == PackPath([start, end], [fee]) && HopOk(factory, start, end, fee);
        DirectIsChecked(factory, bridge, start, end, fee);
      } else if IsBridged(factory, bridge, path, start, end) {
        var fee, fee' :| fee in ALLOWED_FEES && fee' in ALLOWED_FEES
                         && path == PackPath([start, bridge, end], [fee, fee'])
                         && HopOk(factory, start, bridge, fee) && HopOk(factory, bridge, end, fee');
        BridgedIsChecked(factory, bridge, start, end, fee, fee');
      }
    }
  }

  /** The verdict on one hop: a malformed one first, then the bridge, then the factory. */
  function HopVerdict(factory: Factory, tokenIn: Address, tokenOut: Address, fee: nat, bridgeOk: bool): (r: Outcome<()>)
    ensures r.Ok? <==> HopOk(factory, tokenIn, tokenOut, fee) && bridgeOk
  {
    if !AllowedFee(fee) || tokenOut == ZERO || tokenOut == tokenIn || !bridgeOk then Err(InvalidV3Path)
    else Need(factory(tokenIn, tokenOut, fee) != ZERO, MissingV3Pool)
  }

  /** The first hop that fails decides the error. */
  function HopsVerdict(factory: Factory, bridge: Address, tokens: seq<Address>, fees: seq<nat>,
                       index: nat): (r: Outcome<()>)
    requires |tokens| == |fees| + 1 && index <= |fees|
    ensures r.Ok? <==> HopsOkFrom(factory, bridge, tokens, fees, index)
    decreases |fees| - index
  {
    if index == |fees| then Ok(())
    else
      var _ :- HopVerdict(factory, tokens[index], tokens[index + 1], fees[index],
                          |fees| == 2 && index == 0 ==> tokens[1] == bridge);
      HopsVerdict(factory, bridge, tokens, fees, index + 1)
  }

  lemma HopsVerdictStep(factory: Factory, bridge: Address, tokens: seq<Address>, fees: seq<nat>, index: nat)
    requires |tokens| == |fees| + 1 && index < |fees|
    ensures HopsVerdict(factory, bridge, tokens, fees, index)
            == match HopVerdict(factory, tokens[index], tokens[index + 1], fees[index],
                                |fees| == 2 && index == 0 ==> tokens[index + 1] == bridge)
               case Err(e) => Err(e)
               case Ok(_) => HopsVerdict(factory, bridge, tokens, fees, index + 1)
  {
  }

  function PathVerdict(factory: Factory, bridge: Address, path: seq<Byte>, start: Address,
                       end: Address): (r: Outcome<()>)
    ensures r.Ok? <==> CheckPath(factory, bridge, path, start, end)
  {
    if start == end then Need(path == [], InvalidV3Path)
    else
      var _ :- Need(LengthOk(path), InvalidV3Path);
      var hops := (|path| - TOKEN_BYTES) / HOP_BYTES;
      var _ :- Need(Tokens(path, hops)[0] == start && Tokens(path, hops)[hops] == end, InvalidV3Path);
      HopsVerdict(factory, bridge, Tokens(path, hops), Fees(path, hops), 0)
  }

  /** `_validateV3Path`, reading calldata in which anything may follow the path. */
  method ValidateV3Path(factory: Factory, bridge: Address, path: seq<Byte>, rest: seq<Byte>, start: Address,
                        end: Address)
    returns (r: Outcome<()>)
    ensures r == PathVerdict(factory, bridge, path, start, end)
    ensures r.Ok? <==> CheckPath(factory, bridge, path, start, end)
  {
    if start == end {
      return Need(|path| == 0, InvalidV3Path);
    }
    if |path| < 43 || |path| > TOKEN_BYTES + HOP_BYTES * MAX_V3_HOPS || (|path| - TOKEN_BYTES) % HOP_BYTES != 0 {
      return Err(InvalidV3Path);
    }
    var hops := (|path| - TOKEN_BYTES) / HOP_BYTES;
    ghost var tokens, fees := Tokens(path, hops), Fees(path, hops);
    TokenInside(path, rest, 0);
    TokenInside(path, rest, |path| - TOKEN_BYTES);
    var token := ReadToken(path + rest, 0);
    if token != start || ReadToken(path + rest, |path| - TOKEN_BYTES) != end {
      return Err(InvalidV3Path);
    }
    r := ValidateHops(factory, bridge, path, rest, hops);
  }

  /** The loop's reads of one hop. */
  lemma HopInside(path: seq<Byte>, rest: seq<Byte>, hops: nat, index: nat)
    requires |path| == TOKEN_BYTES + HOP_BYTES * hops && index < hops
    ensures ReadFee(path + rest, index * HOP_BYTES + TOKEN_BYTES) == Fees(path, hops)[index]
    ensures ReadToken(path + rest, index * HOP_BYTES + HOP_BYTES) == Tokens(path, hops)[index + 1]
  {
    FeeInside(path, rest, index * HOP_BYTES + TOKEN_BYTES);
    TokenInside(path, rest, index * HOP_BYTES + HOP_BYTES);
  }

  method ValidateHop(factory: Factory, bridge: Address, path: seq<Byte>, rest: seq<Byte>, hops: nat, index: nat,
                     token: Address)
    returns (r: Outcome<Address>)
    requires |path| == TOKEN_BYTES + HOP_BYTES * hops && index < hops
    ensures var nextToken := Tokens(path, hops)[index + 1];
            r == match HopVerdict(factory, token, nextToken, Fees(path, hops)[index],
                                  hops == 2 && index == 0 ==> nextToken == bridge)
                 case Err(e) => Err(e)
                 case Ok(_) => Ok(nextToken)
  {
    HopInside(path, rest, hops, index);
    var cursor := index * HOP_BYTES;
    var fee := ReadFee(path + rest, cursor + TOKEN_BYTES);
    var nextToken := ReadToken(path + rest, cursor + HOP_BYTES);
    if !AllowedFee(fee) || nextToken == ZERO || nextToken == token {
      return Err(InvalidV3Path);
    }
    if hops == 2 && index == 0 && nextToken != bridge {
      return Err(InvalidV3Path);
    }
    r := if factory(token, nextToken, fee) == ZERO then Err(MissingV3Pool) else Ok(nextToken);
  }

  method ValidateHops(factory: Factory, bridge: Address, path: seq<Byte>, rest: seq<Byte>, hops: nat)
    returns (r: Outcome<()>)
    requires |path| == TOKEN_BYTES + HOP_BYTES * hops
    ensures r == HopsVerdict(factory, bridge, Tokens(path, hops), Fees(path, hops), 0)
  {
    ghost var tokens, fees := Tokens(path, hops), Fees(path, hops);
    TokenInside(path, rest, 0);
    var token := ReadToken(path + rest, 0);
    ghost var verdict := HopsVerdict(factory, bridge, tokens, fees, 0);
    for index := 0 to hops
      invariant token == tokens[index] && verdict == HopsVerdict(factory, bridge, tokens, fees, index)
    {
      HopsVerdictStep(factory, bridge, tokens, fees, index);
      var hop := ValidateHop(factory, bridge, path, rest, hops, index, token);
      if hop.Err? {
        return Err(hop.error);
      }
      token := hop.value;
    }
    r := Ok(());
  }

  function DirectPool(factory: Factory, path: seq<Byte>): Outcome<(Address, bool)> {
    var tokenIn := ReadToken(path, 0);
    var tokenOut := ReadToken(path, HOP_BYTES);
    var pool := factory(tokenIn, tokenOut, ReadFee(path, TOKEN_BYTES));
    if pool == ZERO then Err(MissingV3Pool) else Ok((pool, tokenIn < tokenOut))
  }

  /** Whatever lies behind the path in memory, the pool selected depends on the path alone. */
  lemma DirectPoolIgnoresRest(factory: Factory, path: seq<Byte>, rest: seq<Byte>)
    requires |path| == 43
    ensures DirectPool(factory, path + rest) == DirectPool(factory, path)
  {
    TokenInside(path, rest, 0);
    TokenInside(path, rest, HOP_BYTES);
    FeeInside(path, rest, TOKEN_BYTES);
  }

  lemma DirectPoolIsPacked(factory: Factory, start: Address, end: Address, fee: nat)
    requires HopOk(factory, start, end, fee)
    ensures DirectPool(factory, PackPath([start, end], [fee])) == Ok((factory(start, end, fee), start < end))
  {
    var path := PackPath([start, end], [fee]);
    PackedIsRead([start, end], [fee]);
    assert Tokens(path, 1) == [start, end] && Fees(path, 1) == [fee];
  }

  lemma BridgedIsLonger(factory: Factory, bridge: Address, path: seq<Byte>, start: Address, end: Address)
    requires IsBridged(factory, bridge, path, start, end)
    ensures |path| == TOKEN_BYTES + HOP_BYTES * 2
  {
    var fee, fee' :| fee in ALLOWED_FEES && fee' in ALLOWED_FEES && path == PackPath([start, bridge, end], [fee, fee']);
    PackLength([start, bridge, end], [fee, fee']);
  }

  /** The pool a direct swap selects from memory is the one validation checked from calldata. */
  lemma DirectPoolIsValidatedPool(factory: Factory, bridge: Address, path: seq<Byte>, start: Address, end: Address)
    requires start != end && PathOk(factory, bridge, path, start, end) && |path| == 43
    ensures exists fee :: fee in ALLOWED_FEES && path == PackPath([start, end], [fee])
                          && factory(start, end, fee) != ZERO
                          && DirectPool(factory, path) == Ok((factory(start, end, fee), start < end))
  {
    if IsBridged(factory, bridge, path, start, end) {
      BridgedIsLonger(factory, bridge, path, start, end);
    }
    var fee :| fee in ALLOWED_FEES && path == PackPath([start, end], [fee]) && HopOk(factory, start, end, fee);
    DirectPoolIsPacked(factory, start, end, fee);
  }
}
