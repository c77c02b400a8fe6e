/** The indexer's event handlers: each HTLC log event becomes one stored
    entity, keyed by chain id, block number and log index. */
module Indexer {
  import Strings

  datatype Block = Block(number: nat, timestamp: nat)

  /** What every handler reads besides the event parameters. */
  datatype EventMeta = EventMeta(chainId: nat, block: Block, logIndex: nat, txHash: string)

  datatype NewParams = NewParams(contractId: string, sender: string, receiver: string,
                                 amount: nat, hashlock: string, timelock: nat)

  /** A `LogHTLCNew` entity. */
  datatype HtlcNewEntity = HtlcNewEntity(id: string, contractId: string, sender: string, receiver: string,
                                         amount: nat, hashlock: string, timelock: nat,
                                         timestamp: nat, txHash: string)

  /** A `LogHTLCRefund` or `LogHTLCWithdraw` entity: both have these four fields only. */
  datatype SettleEntity = SettleEntity(id: string, contractId: string, timestamp: nat, txHash: string)

  /** The three entity tables. */
  datatype Store = Store(created: map<string, HtlcNewEntity>,
                         refunds: map<string, SettleEntity>,
                         withdrawals: map<string, SettleEntity>)

  /** `${chainId}_${block.number}_${logIndex}`. */
  function EntityId(meta: EventMeta): string
  {
    Strings.Decimal(meta.chainId) + "_" + Strings.Decimal(meta.block.number) + "_" + Strings.Decimal(meta.logIndex)
  }

  lemma DigitsHaveNoUnderscore(n: nat)
    ensures '_' !in Strings.Decimal(n)
  {
  }

  /** The id tells the event apart: two events with the same id come from the
      same chain, block and log index. */
  lemma EntityIdInjective(m: EventMeta, m': EventMeta)
    requires EntityId(m) == EntityId(m')
    ensures m.chainId == m'.chainId && m.block.number == m'.block.number && m.logIndex == m'.logIndex
  {
    var c, b, l := Strings.Decimal(m.chainId), Strings.Decimal(m.block.number), Strings.Decimal(m.logIndex);
    var c', b', l' := Strings.Decimal(m'.chainId), Strings.Decimal(m'.block.number), Strings.Decimal(m'.logIndex);
    DigitsHaveNoUnderscore(m.chainId);
    DigitsHaveNoUnderscore(m'.chainId);
    DigitsHaveNoUnderscore(m.block.number);
    DigitsHaveNoUnderscore(m'.block.number);
    assert EntityId(m) == c + ['_'] + (b + ['_'] + l);
    assert EntityId(m') == c' + ['_'] + (b' + ['_'] + l');
    Strings.SplitAtSeparator(c, b + ['_'] + l, c', b' + ['_'] + l', '_');
    Strings.SplitAtSeparator(b, l, b', l', '_');
    Strings.DecimalInjective(m.chainId, m'.chainId);
    Strings.DecimalInjective(m.block.number, m'.block.number);
    Strings.DecimalInjective(m.logIndex, m'.logIndex);
  }

  predicate NoUpperCase(s: string)
  {
    forall i :: 0 <= i < |s| ==> !('A' <= s[i] <= 'Z')
  }

  /** The entity the `LogHTLCNew` handler builds. */
  function NewEntity(meta: EventMeta, p: NewParams): (e: HtlcNewEntity)
    ensures e.id == EntityId(meta)
    ensures NoUpperCase(e.sender) && NoUpperCase(e.receiver)
    ensures e.sender == Strings.ToLower(p.sender) && e.receiver == Strings.ToLower(p.receiver)
    ensures e.contractId == p.contractId && e.amount == p.amount
    ensures e.hashlock == p.hashlock && e.timelock == p.timelock
    ensures e.timestamp == meta.block.timestamp && e.txHash == meta.txHash
  {
    HtlcNewEntity(EntityId(meta), p.contractId, Strings.ToLower(p.sender), Strings.ToLower(p.receiver),
                  p.amount, p.hashlock, p.timelock, meta.block.timestamp, meta.txHash)
  }

  /** The entity the refund and withdraw handlers build. */
  function SettleEntityOf(meta: EventMeta, contractId: string): (e: SettleEntity)
    ensures e.id == EntityId(meta) && e.contractId == contractId
    ensures e.timestamp == meta.block.timestamp && e.txHash == meta.txHash
  {
    SettleEntity(EntityId(meta), contractId, meta.block.timestamp, meta.txHash)
  }

  /** The `LogHTLCNew` handler: one `set` in the created table. */
  function OnHtlcNew(store: Store, meta: EventMeta, p: NewParams): (r: Store)
    ensures r.refunds == store.refunds && r.withdrawals == store.withdrawals
    ensures r.created.Keys == store.created.Keys + {EntityId(meta)}
    ensures r.created[EntityId(meta)] == NewEntity(meta, p)
    ensures forall k :: k in store.created && k != EntityId(meta) ==> r.created[k] == store.created[k]
  {
    store.(created := store.created[EntityId(meta) := NewEntity(meta, p)])
  }

  /** The `LogHTLCRefund` handler. */
  function OnHtlcRefund(store: Store, meta: EventMeta, contractId: string): (r: Store)
    ensures r.created == store.created && r.withdrawals == store.withdrawals
    ensures r.refunds.Keys == store.refunds.Keys + {EntityId(meta)}
    ensures r.refunds[EntityId(meta)] == SettleEntityOf(meta, contractId)
    ensures forall k :: k in store.refunds && k != EntityId(meta) ==> r.refunds[k] == store.refunds[k]
  {
    store.(refunds := store.refunds[EntityId(meta) := SettleEntityOf(meta, contractId)])
  }

  /** The `LogHTLCWithdraw` handler. */
  function OnHtlcWithdraw(store: Store, meta: EventMeta, contractId: string): (r: Store)
    ensures r.created == store.created && r.refunds == store.refunds
    ensures r.withdrawals.Keys == store.withdrawals.Keys + {EntityId(meta)}
    ensures r.withdrawals[EntityId(meta)] == SettleEntityOf(meta, contractId)
    ensures forall k :: k in store.withdrawals && k != EntityId(meta) ==> r.withdrawals[k] == store.withdrawals[k]
  {
    store.(withdrawals := store.withdrawals[EntityId(meta) := SettleEntityOf(meta, contractId)])
  }

  /** Re-processing an event writes the same entity under the same key. */
  lemma ReplayIsIdempotent(store: Store, meta: EventMeta, p: NewParams, contractId: string)
    ensures OnHtlcNew(OnHtlcNew(store, meta, p), meta, p) == OnHtlcNew(store, meta, p)
    ensures OnHtlcRefund(OnHtlcRefund(store, meta, contractId), meta, contractId) == OnHtlcRefund(store, meta, contractId)
    ensures OnHtlcWithdraw(OnHtlcWithdraw(store, meta, contractId), meta, contractId)
              == OnHtlcWithdraw(store, meta, contractId)
  {
    var s1 := OnHtlcNew(store, meta, p);
    assert OnHtlcNew(s1, meta, p).created == s1.created;
    var s2 := OnHtlcRefund(store, meta, contractId);
    assert OnHtlcRefund(s2, meta, contractId).refunds == s2.refunds;
    var s3 := OnHtlcWithdraw(store, meta, contractId);
    assert OnHtlcWithdraw(s3, meta, contractId).withdrawals == s3.withdrawals;
  }

  /** Events from different positions never overwrite each other: after two
      `LogHTLCNew` events from different logs both entities are stored. */
  lemma DistinctEventsBothKept(store: Store, m1: EventMeta, p1: NewParams, m2: EventMeta, p2: NewParams)
    requires m1.chainId != m2.chainId || m1.block.number != m2.block.number || m1.logIndex != m2.logIndex
    ensures OnHtlcNew(OnHtlcNew(store, m1, p1), m2, p2).created[EntityId(m1)] == NewEntity(m1, p1)
    ensures OnHtlcNew(OnHtlcNew(store, m1, p1), m2, p2).created[EntityId(m2)] == NewEntity(m2, p2)
  {
    if EntityId(m1) == EntityId(m2) {
      EntityIdInjective(m1, m2);
    }
  }

  /** Addresses are stored lower-cased: two events that differ only in the
      case of their addresses give the same entity. */
  lemma AddressCaseIgnored(meta: EventMeta, p: NewParams, q: NewParams)
    requires p.contractId == q.contractId && p.amount == q.amount
    requires p.hashlock == q.hashlock && p.timelock == q.timelock
    requires Strings.ToLower(p.sender) == Strings.ToLower(q.sender)
    requires Strings.ToLower(p.receiver) == Strings.ToLower(q.receiver)
    ensures NewEntity(meta, p) == NewEntity(meta, q)
  {
  }
}
