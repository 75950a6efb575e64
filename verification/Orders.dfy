/** Orders, their execution flags, and the classification of an order into a trading intent. */
module Orders {
  import opened Options
  import opened Text

  /** A metadata value: the flag reader looks only at booleans and strings, and a signal kind is
      printed with Go's `%v`, whose text a value of any other type carries here. */
  datatype MetaValue = Flag(on: bool) | Words(text: string) | Opaque(printed: string)

  function Printed(v: MetaValue): string {
    match v
    case Flag(on) => if on then "true" else "false"
    case Words(text) => text
    case Opaque(printed) => printed
  }

  datatype Order = Order(
    id: string,
    side: string,
    status: string,
    quantity: real,
    reduceOnly: bool,
    closePosition: bool,
    metadata: map<string, MetaValue>)

  datatype Intent = OpenLong | OpenShort | CloseLong | CloseShort | UnknownIntent {
    predicate IsEntry() { this == OpenLong || this == OpenShort }
    predicate IsExit() { this == CloseLong || this == CloseShort }

    /** The two-character label shown in the console. */
    function Label(): string {
      match this
      case OpenLong => "\U{5F00}\U{591A}"
      case OpenShort => "\U{5F00}\U{7A7A}"
      case CloseLong => "\U{5E73}\U{591A}"
      case CloseShort => "\U{5E73}\U{7A7A}"
      case UnknownIntent => "\U{672A}\U{77E5}"
    }
  }

  predicate FlagValue(metadata: map<string, MetaValue>, key: string) {
    key in metadata &&
    match metadata[key]
    case Flag(on) => on
    case Words(text) => ToLower(TrimSpace(text)) == "true"
    case Opaque(_) => false
  }

  predicate EffectiveReduceOnly(o: Order) {
    o.reduceOnly || FlagValue(o.metadata, "reduceOnly")
  }

  predicate EffectiveClosePosition(o: Order) {
    o.closePosition || FlagValue(o.metadata, "closePosition")
  }

  function ClassifyOrderIntent(o: Order): Intent {
    var side := ToUpper(TrimSpace(o.side));
    var isExit := EffectiveReduceOnly(o) || EffectiveClosePosition(o);
    if side == "BUY" && !isExit then OpenLong
    else if side == "SELL" && !isExit then OpenShort
    else if side == "SELL" && isExit then CloseLong
    else if side == "BUY" && isExit then CloseShort
    else UnknownIntent
  }

  /** The outcome of normalising the execution flags: each flag and its metadata entry agree with
      the effective value, and a metadata entry is written only when its flag holds. */
  function WithFlags(o: Order): Order {
    var ro, cp := EffectiveReduceOnly(o), EffectiveClosePosition(o);
    var m1 := if ro then o.metadata["reduceOnly" := Flag(true)] else o.metadata;
    var m2 := if cp then m1["closePosition" := Flag(true)] else m1;
    o.(reduceOnly := ro, closePosition := cp, metadata := m2)
  }

  /** Normalising changes no decision: the effective flags and the intent are those from before,
      the plain fields now show them, and normalising again does nothing. */
  lemma NormalizingKeepsIntent(o: Order)
    ensures ClassifyOrderIntent(WithFlags(o)) == ClassifyOrderIntent(o)
    ensures WithFlags(o).reduceOnly == EffectiveReduceOnly(o) == EffectiveReduceOnly(WithFlags(o))
    ensures WithFlags(o).closePosition == EffectiveClosePosition(o) == EffectiveClosePosition(WithFlags(o))
    ensures WithFlags(WithFlags(o)) == WithFlags(o)
  {
    var n := WithFlags(o);
    assert EffectiveReduceOnly(n) == EffectiveReduceOnly(o);
    assert EffectiveClosePosition(n) == EffectiveClosePosition(o);
    assert WithFlags(n).metadata == n.metadata;
  }

  /** The order record that `NormalizeExecutionFlags` updates through its pointer; a nil metadata
      map is `None`, which reads as an empty map and is replaced by one. */
  class OrderRecord {
    const id: string
    const side: string
    const status: string
    const quantity: real
    var reduceOnly: bool
    var closePosition: bool
    var metadata: Option<map<string, MetaValue>>

    function Value(): Order
      reads this
    {
      Order(id, side, status, quantity, reduceOnly, closePosition,
            if metadata.Some? then metadata.value else map[])
    }

    constructor (o: Order, isNil: bool)
      requires isNil ==> o.metadata == map[]
      ensures Value() == o && metadata.None? == isNil
    {
      id, side, status, quantity := o.id, o.side, o.status, o.quantity;
      reduceOnly, closePosition := o.reduceOnly, o.closePosition;
      metadata := if isNil then None else Some(o.metadata);
    }

    method NormalizeExecutionFlags()
      modifies this
      ensures metadata.Some?
      ensures Value() == WithFlags(old(Value()))
    {
      if metadata.None? {
        metadata := Some(map[]);
      }
      if FlagValue(metadata.value, "reduceOnly") {
        reduceOnly := true;
      }
      if FlagValue(metadata.value, "closePosition") {
        closePosition := true;
      }
      if reduceOnly {
        metadata := Some(metadata.value["reduceOnly" := Flag(true)]);
      }
      if closePosition {
        metadata := Some(metadata.value["closePosition" := Flag(true)]);
      }
    }
  }
}
