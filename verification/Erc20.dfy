/** ERC-20 call data: how the sender lays out transfer(address,uint256) and how a balanceOf
    answer is read back. */
module Erc20 {
  import opened Domain
  import opened Text

  type byte = x: int | 0 <= x < 256

  /** A 20-byte account address. */
  type Address = a: seq<byte> | |a| == 20 witness seq(20, _ => 0)

  const SELECTOR: seq<byte> := [0xa9, 0x05, 0x9c, 0xbb]

  function Pow256(w: nat): (p: nat)
    ensures p > 0
  {
    if w == 0 then 1 else 256 * Pow256(w - 1)
  }

  /** big.Int.SetBytes. */
  function BigEndian(bs: seq<byte>): nat {
    if bs == [] then 0 else 256 * BigEndian(bs[..|bs| - 1]) + bs[|bs| - 1]
  }

  /** big.Int.Bytes: no leading zero byte, empty for zero. */
  function Bytes(n: nat): (bs: seq<byte>)
    ensures BigEndian(bs) == n
  {
    if n == 0 then [] else Bytes(n / 256) + [n % 256]
  }

  /** The ABI's word of a number: w bytes, big-endian, padded with zeros on the left. */
  function Word(n: nat, w: nat): (bs: seq<byte>)
    ensures |bs| == w
  {
    if w == 0 then [] else Word(n / 256, w - 1) + [n % 256]
  }

  lemma {:induction false} BigEndianBound(bs: seq<byte>)
    ensures BigEndian(bs) < Pow256(|bs|)
  {
    if bs != [] {
      BigEndianBound(bs[..|bs| - 1]);
    }
  }

  /** Splitting a string of bytes splits its value. */
  lemma {:induction false} BigEndianSplit(xs: seq<byte>, ys: seq<byte>)
    ensures BigEndian(xs + ys) == BigEndian(xs) * Pow256(|ys|) + BigEndian(ys)
  {
    if ys == [] {
      assert xs + ys == xs;
    } else {
      var init := ys[..|ys| - 1];
      assert (xs + ys)[..|xs + ys| - 1] == xs + init;
      BigEndianSplit(xs, init);
      assert 256 * (BigEndian(xs) * Pow256(|init|)) == BigEndian(xs) * (256 * Pow256(|init|));
    }
  }

  /** A word is the only byte string of its width with its value. */
  lemma {:induction false} WordUnique(bs: seq<byte>)
    ensures bs == Word(BigEndian(bs), |bs|)
  {
    if bs != [] {
      WordUnique(bs[..|bs| - 1]);
    }
  }

  lemma {:induction false} ZerosAreZero(bs: seq<byte>)
    requires forall i :: 0 <= i < |bs| ==> bs[i] == 0
    ensures BigEndian(bs) == 0
  {
    if bs != [] {
      ZerosAreZero(bs[..|bs| - 1]);
    }
  }

  lemma {:induction false} WordValue(n: nat, w: nat)
    ensures BigEndian(Word(n, w)) == n % Pow256(w)
  {
    if w > 0 {
      WordValue(n / 256, w - 1);
      ModStep(n, Pow256(w - 1));
    }
  }

  lemma ModStep(n: nat, p: nat)
    requires p > 0
    ensures n % (256 * p) == 256 * (n / 256 % p) + n % 256
  {
    var q, r := n / 256 / p, n / 256 % p;
    var d := 256 * r + n % 256;
    assert n == q * (256 * p) + d by {
      assert n / 256 == q * p + r;
      assert 256 * (q * p) == q * (256 * p);
    }
    assert d < 256 * p;
    Remainder(n, 256 * p, q, d);
  }

  lemma Remainder(n: nat, m: nat, q: int, d: nat)
    requires n == q * m + d && d < m
    ensures n % m == d
  {
    assert n == (n / m) * m + n % m;
    assert (n / m - q) * m == d - n % m;
    AtLeastOne(n / m - q, m);
    AtLeastOne(q - n / m, m);
    assert (q - n / m) * m == n % m - d;
  }

  // ---- Building call data in a byte buffer ----

  function Spliced(s: seq<byte>, at: nat, src: seq<byte>): (r: seq<byte>)
    requires at + |src| <= |s|
    ensures |r| == |s|
  {
    s[..at] + src + s[at + |src|..]
  }

  /** Go's copy(data[at:], src), for a source that fits. */
  method CopyInto(data: array<byte>, at: nat, src: seq<byte>)
    requires at + |src| <= data.Length
    modifies data
    ensures data[..] == Spliced(old(data[..]), at, src)
  {
    for i := 0 to |src|
      invariant forall j :: at <= j < at + i ==> data[j] == src[j - at]
      invariant forall j :: 0 <= j < data.Length && !(at <= j < at + i) ==> data[j] == old(data[j])
    {
      data[at + i] := src[i];
    }
  }

  /** The amount bytes, left-truncated to w, behind zeros: the ABI word of the amount. */
  lemma TailIsWord(zeros: seq<byte>, tail: seq<byte>, head: seq<byte>, amount: nat)
    requires head + tail == Bytes(amount)
    requires forall i :: 0 <= i < |zeros| ==> zeros[i] == 0
    requires head == [] || zeros == []
    ensures zeros + tail == Word(amount, |zeros| + |tail|)
  {
    hide BigEndian, Word, Bytes, Pow256;
    if head == [] {
      assert head + tail == tail;
      PaddedWord(zeros, tail);
    } else {
      assert zeros + tail == tail;
      TruncatedWord(tail, head, amount);
    }
  }

  /** The last bytes of a longer number are its word. */
  lemma TruncatedWord(tail: seq<byte>, head: seq<byte>, amount: nat)
    requires head + tail == Bytes(amount)
    ensures tail == Word(amount, |tail|)
  {
    hide BigEndian, Word, Bytes, Pow256;
    BigEndianSplit(head, tail);
    BigEndianBound(tail);
    Remainder(amount, Pow256(|tail|), BigEndian(head), BigEndian(tail));
    SameWord(amount, tail);
  }

  lemma SameWord(n: nat, bs: seq<byte>)
    requires BigEndian(bs) == n % Pow256(|bs|)
    ensures bs == Word(n, |bs|)
  {
    WordValue(n, |bs|);
    WordUnique(bs);
    WordUnique(Word(n, |bs|));
  }

  /** The layout the Contract ABI prescribes: selector, uint160 address, uint256 amount, the
      numbers as 32-byte words. */
  function CallData(to: Address, amount: nat): seq<byte> {
    SELECTOR + Word(BigEndian(to), 32) + Word(amount, 32)
  }

  lemma AddressWord(zeros: seq<byte>, to: Address)
    requires |zeros| == 12 && forall i :: 0 <= i < 12 ==> zeros[i] == 0
    ensures zeros + to == Word(BigEndian(to), 32)
  {
    hide BigEndian, Word;
    PaddedWord(zeros, to);
  }

  lemma PaddedWord(zeros: seq<byte>, bs: seq<byte>)
    requires forall i :: 0 <= i < |zeros| ==> zeros[i] == 0
    ensures zeros + bs == Word(BigEndian(bs), |zeros| + |bs|)
  {
    hide BigEndian, Word, Pow256;
    ZerosAreZero(zeros);
    BigEndianSplit(zeros, bs);
    WordUnique(zeros + bs);
  }

  /** Fills the 68-byte buffer; a missing amount counts as zero. */
  method TransferData(to: Address, amountOrNil: Option<nat>) returns (data: array<byte>)
    ensures data[..] == CallData(to, if amountOrNil.Some? then amountOrNil.value else 0)
  {
    hide BigEndian, Word, Bytes, Spliced, CallData;
    var amount := if amountOrNil.Some? then amountOrNil.value else 0;
    data := new byte[68](_ => 0);
    ghost var blank := data[..];
    CopyInto(data, 0, SELECTOR);
    CopyInto(data, 4 + 12, to);
    var bs := Bytes(amount);
    ghost var dropped := [];
    if |bs| > 32 {
      dropped := bs[..|bs| - 32];
      bs := bs[|bs| - 32..];
    }
    CopyInto(data, data.Length - |bs|, bs);
    LayoutExact(blank, to, dropped, bs, amount);
  }

  /** The three copies into a blank buffer, against the ABI's layout. */
  lemma LayoutExact(blank: seq<byte>, to: Address, dropped: seq<byte>, bs: seq<byte>, amount: nat)
    requires |blank| == 68 && (forall i :: 0 <= i < 68 ==> blank[i] == 0)
    requires dropped + bs == Bytes(amount) && |bs| <= 32 && (dropped == [] || |bs| == 32)
    ensures Spliced(Spliced(Spliced(blank, 0, SELECTOR), 16, to), 68 - |bs|, bs) == CallData(to, amount)
  {
    hide BigEndian, Word, Bytes;
    var one := Spliced(blank, 0, SELECTOR);
    assert one == SELECTOR + blank[4..];
    var two := Spliced(one, 16, to);
    assert two[..36] == SELECTOR + (blank[4..16] + to) && two[36..] == blank[36..];
    var three := Spliced(two, 68 - |bs|, bs);
    assert three == two[..36] + (blank[36..68 - |bs|] + bs);
    AddressWord(blank[4..16], to);
    TailIsWord(blank[36..68 - |bs|], bs, dropped, amount);
  }

  // ---- Reading it back ----

  datatype Call = Call(selector: seq<byte>, to: Address, amount: nat)

  /** Reads call data as an ERC-20 contract does: None when it is not a selector and two words
      the first of which is a uint160. */
  function Decode(data: seq<byte>): Option<Call> {
    if |data| != 68 || BigEndian(data[4..16]) != 0 then None
    else Some(Call(data[..4], data[16..36], BigEndian(data[36..])))
  }

  /** What a contract reads is the selector, the claimant and the amount modulo 2^256. */
  lemma CallDataRoundTrip(to: Address, amount: nat)
    ensures Decode(CallData(to, amount)) == Some(Call([0xa9, 0x05, 0x9c, 0xbb], to, amount % Pow256(32)))
    ensures Decode(CallData(to, amount)).value.amount == amount <==> amount < Pow256(32)
  {
    hide BigEndian, Word, Pow256;
    var zeros := seq(12, _ => 0);
    AddressWord(zeros, to);
    ZerosAreZero(zeros);
    WordValue(amount, 32);
    var data := CallData(to, amount);
    assert data == SELECTOR + zeros + to + Word(amount, 32);
    assert data[..4] == SELECTOR && data[4..16] == zeros && data[16..36] == to && data[36..] == Word(amount, 32);
    ModBelow(amount, Pow256(32));
  }

  lemma ModBelow(n: nat, m: nat)
    requires m > 0
    ensures n % m == n <==> n < m
  {
    if n < m {
      Remainder(n, m, 0, n);
    }
  }

  /** Only call data made by TransferData reads as a transfer. */
  lemma OnlyCallDataDecodes(data: seq<byte>)
    requires Decode(data).Some? && data[..4] == SELECTOR
    ensures data == CallData(Decode(data).value.to, Decode(data).value.amount)
  {
    var zeros := data[4..16];
    AllZero(zeros);
    AddressWord(zeros, data[16..36]);
    WordUnique(data[36..]);
    assert data == data[..4] + (zeros + data[16..36]) + data[36..];
  }

  lemma {:induction false} AllZero(bs: seq<byte>)
    requires BigEndian(bs) == 0
    ensures forall i :: 0 <= i < |bs| ==> bs[i] == 0
  {
    if bs != [] {
      AllZero(bs[..|bs| - 1]);
    }
  }

  /** The balanceOf answer: an error when shorter than a word, else its last word. */
  function BalanceOfAnswer(out: seq<byte>): Option<nat> {
    if |out| < 32 then None else Some(BigEndian(out[|out| - 32..]))
  }

  /** Any answer ending in the word of a balance is read as that balance, and amounts laid out by
      the sender are read back the same way. */
  lemma BalanceRoundTrip(prefix: seq<byte>, balance: nat, to: Address)
    ensures BalanceOfAnswer(prefix + Word(balance, 32)) == Some(balance % Pow256(32))
    ensures BalanceOfAnswer(CallData(to, balance)) == Some(balance % Pow256(32))
  {
    WordValue(balance, 32);
    assert (prefix + Word(balance, 32))[|prefix|..] == Word(balance, 32);
    assert CallData(to, balance)[36..] == Word(balance, 32);
  }
}
