/** The chunker of chunk.go: size limits, the one-pass scan, and the numbering fixpoint. */
module Chunker {
  import opened Text
  import opened Tokens
  import opened Numerals
  import opened Packing

  const DATA_PAYLOAD_LIMIT := 233
  const LORA_PAYLOAD_LIMIT := 255
  const MESH_HEADER_BYTES := 16
  const PKI_RESERVE_BYTES := 12
  const MAX_TEXT_CHUNKS: nat := 8
  const MAX_INT: nat := 0x7FFF_FFFF_FFFF_FFFF
  const OVERSIZED_NOTICE := "The response ended up being too long."

  // ----- size limits

  function VarintLen(n: nat): nat { if n < 0x80 then 1 else if n < 0x4000 then 2 else 3 }

  /** The serialised size of the `Data` message that carries a text payload: port number,
      payload, reply id (fixed32, absent when zero) and bitfield (present, zero). */
  function DataSize(payload: nat, replyId: nat): nat {
    2 + (1 + VarintLen(payload) + payload) + (if replyId != 0 then 5 else 0) + 2
  }

  predicate FitsPhysical(text: string, replyId: nat, direct: bool) {
    && 0 < ByteLen(text) <= DATA_PAYLOAD_LIMIT
    && DataSize(ByteLen(text), replyId) + MESH_HEADER_BYTES
       + (if direct then PKI_RESERVE_BYTES else 0) <= LORA_PAYLOAD_LIMIT
  }

  /** The largest payload, in bytes. */
  function Room(replyId: nat, direct: bool): (n: nat)
    ensures 215 <= n <= 232
  {
    232 - (if replyId != 0 then 5 else 0) - (if direct then 12 else 0)
  }

  lemma FitsIffRoom(text: string, replyId: nat, direct: bool)
    ensures FitsPhysical(text, replyId, direct) <==> 0 < ByteLen(text) <= Room(replyId, direct)
    ensures Room(replyId, direct) ==
      if replyId == 0 then (if direct then 220 else 232) else (if direct then 215 else 227)
  {
  }

  // ----- numbering

  function VisiblePrefix(index: nat, total: nat): string {
    if total <= 1 then "" else "[" + Dec(index) + "/" + Dec(total) + "] "
  }

  function PrefixLen(index: nat, total: nat): nat {
    if total <= 1 then 0 else 4 + |Dec(index)| + |Dec(total)|
  }

  lemma PrefixBytes(index: nat, total: nat)
    ensures ByteLen(VisiblePrefix(index, total)) == PrefixLen(index, total)
    ensures |VisiblePrefix(index, total)| == PrefixLen(index, total)
  {
    DecIsAscii(index);
    DecIsAscii(total);
    AsciiByteLen(VisiblePrefix(index, total));
  }

  lemma PrefixedBytes(index: nat, total: nat, body: string)
    ensures ByteLen(VisiblePrefix(index, total) + body) == PrefixLen(index, total) + ByteLen(body)
  {
    PrefixBytes(index, total);
    ByteLenConcat(VisiblePrefix(index, total), body);
  }

  /** The limits that numbering out of `total` leaves for chunk bodies. */
  function LimitsFor(soft: int, total: nat, replyId: nat, direct: bool): Limits {
    Limits(soft, Room(replyId, direct), (k: nat) => PrefixLen(k, total))
  }

  lemma PrefixLenMonotone(i: nat, j: nat, t: nat, u: nat)
    requires i <= j && t <= u
    ensures PrefixLen(i, t) <= PrefixLen(j, u)
  {
    DecWidthMonotone(i, j);
    DecWidthMonotone(t, u);
  }

  lemma LimitsGrow(soft: int, total: nat, replyId: nat, direct: bool)
    ensures LimitsFor(soft, total, replyId, direct).Growing()
  {
    forall i: nat, j: nat | i <= j
      ensures LimitsFor(soft, total, replyId, direct).width(i)
           <= LimitsFor(soft, total, replyId, direct).width(j)
    {
      PrefixLenMonotone(i, j, total, total);
    }
  }

  lemma LimitsTighten(soft: int, t: nat, u: nat, replyId: nat, direct: bool)
    requires t <= u
    ensures LimitsFor(soft, u, replyId, direct).Tighter(LimitsFor(soft, t, replyId, direct))
  {
    forall k: nat
      ensures LimitsFor(soft, t, replyId, direct).width(k)
           <= LimitsFor(soft, u, replyId, direct).width(k)
    {
      PrefixLenMonotone(k, k, t, u);
    }
  }

  /** What one scan works on; `total` is the count that the visible prefixes name. */
  datatype Plan = Plan(text: string, soft: int, total: nat, replyId: nat, direct: bool) {
    function Toks(): (toks: seq<string>)
      ensures NonEmpty(toks)
    {
      TokensAreClean(text);
      TokensOf(text)
    }

    function Lim(): Limits { LimitsFor(soft, total, replyId, direct) }

    function Soft(k: nat): int { soft - PrefixLen(k, total) }

    function Phys(k: nat): int { Room(replyId, direct) - PrefixLen(k, total) }

    function At(k: nat): Pos { PosAt(Toks(), Lim(), k) }

    /** All the tokens go into exactly `n` chunks. */
    ghost predicate Takes(n: nat) { Finishes(Toks(), Lim(), n) }

    /** The `k`-th chunk, counted from one, without its prefix. */
    function ChunkText(k: nat): string
      requires k > 0
    {
      NextIsValid(Toks(), At(k - 1), Lim().Soft(k), Lim().Phys(k));
      if At(k - 1) == At(k) then "" else Body(Toks(), At(k - 1), At(k))
    }

    function Payload(k: nat): string
      requires k > 0
    {
      VisiblePrefix(k, total) + ChunkText(k)
    }

    function Payloads(n: nat): (ps: seq<string>)
      ensures |ps| == n
    {
      if n == 0 then [] else Payloads(n - 1) + [Payload(n)]
    }
  }
}
