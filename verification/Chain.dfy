/**
 * Blocks as the indexer reads them (`apps/indexer/src/chain.ts`): an RPC block item becomes a
 * block whose decoded protocol events stand in canonical order.
 */
module Chain {
  import opened Wrappers
  import opened Bytes
  import opened Projections

  datatype Decoded = Decoded(contract: Contract, payload: Payload)

  /**
   * What the indexer is configured with: how an event name and its bytes decode (None: unknown
   * name or malformed bytes), the address of each protocol contract, and the block hash function
   * (previous hash, "" for none, and the events as `/v1/events` renders them).
   */
  datatype Config = Config(
    decode: (string, Bytes) -> Option<Decoded>,
    address: Contract -> Bytes,
    hash: (string, seq<EventView>) -> string)

  datatype EventView = EventView(
    height: nat, blockId: string, txIndex: nat, txId: string, sequence: nat, name: string, data: Decoded)

  datatype ChainEvent = ChainEvent(name: string, raw: Bytes, data: Decoded, txIndex: nat, sequence: nat, txId: string)

  datatype ChainBlock = ChainBlock(height: nat, id: string, previous: string, timestamp: u64, events: seq<ChainEvent>)

  datatype RawEvent = RawEvent(source: Bytes, name: string, data: Bytes)

  datatype Receipt = Receipt(id: string, reverted: bool, events: seq<RawEvent>)

  datatype Header = Header(previous: string, timestamp: u64)

  datatype BlockItem = BlockItem(height: Option<nat>, id: string, header: Option<Header>, receipts: seq<Receipt>)

  /** A raw event counts when its name decodes and the contract configured for that name emitted it. */
  function DecodeProtocolEvent(cfg: Config, raw: RawEvent): Option<Decoded> {
    var decoded := cfg.decode(raw.name, raw.data);
    if decoded.Some? && cfg.address(decoded.value.contract) == raw.source then decoded else None
  }

  /** The protocol events among the first `n` raw events of transaction `txIndex`. */
  function EventsOfReceipt(cfg: Config, receipt: Receipt, txIndex: nat, n: nat): seq<ChainEvent>
    requires n <= |receipt.events|
  {
    if n == 0 then []
    else
      var raw := receipt.events[n - 1];
      var decoded := DecodeProtocolEvent(cfg, raw);
      EventsOfReceipt(cfg, receipt, txIndex, n - 1)
      + (if decoded.Some? then [ChainEvent(raw.name, raw.data, decoded.value, txIndex, n - 1, receipt.id)] else [])
  }

  /** The protocol events of the first `n` transactions, reverted ones left out. */
  function EventsOfReceipts(cfg: Config, receipts: seq<Receipt>, n: nat): seq<ChainEvent>
    requires n <= |receipts|
  {
    if n == 0 then []
    else
      EventsOfReceipts(cfg, receipts, n - 1)
      + (if receipts[n - 1].reverted then []
         else EventsOfReceipt(cfg, receipts[n - 1], n - 1, |receipts[n - 1].events|))
  }

  /** Converts an RPC block item; None stands for the ChainError of an item without height, id or header. */
  method ParseBlockItem(cfg: Config, item: BlockItem) returns (block: Option<ChainBlock>)
    ensures block.Some? <==> item.height.Some? && item.id != "" && item.header.Some?
    ensures block.Some? ==>
              block.value == ChainBlock(item.height.value, item.id, item.header.value.previous,
                                        item.header.value.timestamp,
                                        EventsOfReceipts(cfg, item.receipts, |item.receipts|))
  {
    if item.height.None? || item.id == "" || item.header.None? {
      return None;
    }
    var events: seq<ChainEvent> := [];
    for txIndex := 0 to |item.receipts|
      invariant events == EventsOfReceipts(cfg, item.receipts, txIndex)
    {
      var receipt := item.receipts[txIndex];
      if !receipt.reverted {
        ghost var before := events;
        for sequence := 0 to |receipt.events|
          invariant events == before + EventsOfReceipt(cfg, receipt, txIndex, sequence)
        {
          var raw := receipt.events[sequence];
          var decoded := DecodeProtocolEvent(cfg, raw);
          if decoded.Some? {
            events := events + [ChainEvent(raw.name, raw.data, decoded.value, txIndex, sequence, receipt.id)];
          }
        }
      }
    }
    return Some(ChainBlock(item.height.value, item.id, item.header.value.previous, item.header.value.timestamp,
                           events));
  }

  /** Canonical order within a block: by transaction, then by position in its receipt. */
  ghost predicate Precedes(a: ChainEvent, b: ChainEvent) {
    a.txIndex < b.txIndex || (a.txIndex == b.txIndex && a.sequence < b.sequence)
  }

  /** Events in strict canonical order, each of which decodes to what it carries. */
  ghost predicate Canonical(cfg: Config, events: seq<ChainEvent>) {
    && (forall i, j | 0 <= i < j < |events| :: Precedes(events[i], events[j]))
    && (forall i | 0 <= i < |events| :: cfg.decode(events[i].name, events[i].raw) == Some(events[i].data))
  }

  lemma CanonicalConcat(cfg: Config, a: seq<ChainEvent>, b: seq<ChainEvent>)
    requires Canonical(cfg, a) && Canonical(cfg, b)
    requires forall x, y | x in a && y in b :: Precedes(x, y)
    ensures Canonical(cfg, a + b)
  {
    hide Precedes;
  }

  lemma {:induction false} ReceiptCanonical(cfg: Config, receipt: Receipt, txIndex: nat, n: nat)
    requires n <= |receipt.events|
    ensures Canonical(cfg, EventsOfReceipt(cfg, receipt, txIndex, n))
    ensures forall e | e in EventsOfReceipt(cfg, receipt, txIndex, n) :: e.txIndex == txIndex && e.sequence < n
  {
    if n != 0 {
      ReceiptCanonical(cfg, receipt, txIndex, n - 1);
    }
  }

  lemma {:induction false} ReceiptsBelow(cfg: Config, receipts: seq<Receipt>, n: nat)
    requires n <= |receipts|
    ensures forall e | e in EventsOfReceipts(cfg, receipts, n) :: e.txIndex < n
  {
    if n != 0 {
      ReceiptsBelow(cfg, receipts, n - 1);
      ReceiptCanonical(cfg, receipts[n - 1], n - 1, |receipts[n - 1].events|);
      hide Canonical, EventsOfReceipt;
    }
  }

  lemma NoEventsCanonical(cfg: Config)
    ensures Canonical(cfg, [])
  {
  }

  /** Parsed blocks are in canonical order and rehydrate from their raw bytes. */
  lemma {:induction false} ParsedEventsCanonical(cfg: Config, receipts: seq<Receipt>, n: nat)
    requires n <= |receipts|
    ensures Canonical(cfg, EventsOfReceipts(cfg, receipts, n))
  {
    hide Canonical, EventsOfReceipt;
    if n == 0 {
      NoEventsCanonical(cfg);
    } else {
      var before := EventsOfReceipts(cfg, receipts, n - 1);
      ParsedEventsCanonical(cfg, receipts, n - 1);
      if receipts[n - 1].reverted {
        assert EventsOfReceipts(cfg, receipts, n) == before;
      } else {
        var events := EventsOfReceipt(cfg, receipts[n - 1], n - 1, |receipts[n - 1].events|);
        ReceiptCanonical(cfg, receipts[n - 1], n - 1, |receipts[n - 1].events|);
        ReceiptsBelow(cfg, receipts, n - 1);
        CanonicalConcat(cfg, before, events);
      }
    }
  }

  lemma {:induction false} ReceiptComplete(cfg: Config, receipt: Receipt, txIndex: nat, n: nat, e: ChainEvent)
    requires n <= |receipt.events|
    ensures e in EventsOfReceipt(cfg, receipt, txIndex, n) <==>
              && e.txIndex == txIndex && e.sequence < n && e.txId == receipt.id
              && e.name == receipt.events[e.sequence].name && e.raw == receipt.events[e.sequence].data
              && DecodeProtocolEvent(cfg, receipt.events[e.sequence]) == Some(e.data)
  {
    if n != 0 {
      ReceiptComplete(cfg, receipt, txIndex, n - 1, e);
    }
  }

  /** A parsed block holds exactly the protocol events of its transactions that were not reverted. */
  lemma {:induction false} ParsedEventsComplete(cfg: Config, receipts: seq<Receipt>, n: nat, e: ChainEvent)
    requires n <= |receipts|
    ensures e in EventsOfReceipts(cfg, receipts, n) <==>
              && e.txIndex < n && !receipts[e.txIndex].reverted
              && e.sequence < |receipts[e.txIndex].events| && e.txId == receipts[e.txIndex].id
              && e.name == receipts[e.txIndex].events[e.sequence].name
              && e.raw == receipts[e.txIndex].events[e.sequence].data
              && DecodeProtocolEvent(cfg, receipts[e.txIndex].events[e.sequence]) == Some(e.data)
  {
    hide DecodeProtocolEvent, EventsOfReceipt;
    if n != 0 {
      ParsedEventsComplete(cfg, receipts, n - 1, e);
      ReceiptComplete(cfg, receipts[n - 1], n - 1, |receipts[n - 1].events|, e);
    }
  }
}
