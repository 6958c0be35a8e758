/**
 * `RxHashMap`: a map whose reactive form gives every entry its own signal,
 * all held in one outer signal.
 */
module RxHashMap {
  import opened Wrappers

  /** A reactive cell (`Signal`): a value that can be read and replaced. */
  class Signal<T> {
    var value: T

    constructor (v: T)
      ensures value == v
    {
      value := v;
    }
  }

  /** The unreactive map. */
  datatype RxHashMap<K, V> = RxHashMap(inner: map<K, V>)

  /** The reactive map: a signal holding one signal per key. */
  datatype RxHashMapRx<K, V> = RxHashMapRx(outer: Signal<map<K, Signal<V>>>)

  /** No two keys share a signal, so setting one entry never changes another. */
  ghost predicate DistinctSignals<K, V>(cells: map<K, Signal<V>>) {
    forall a, b :: a in cells && b in cells && a != b ==> cells[a] != cells[b]
  }

  /** `From<HashMap>`: wrap a map unchanged. */
  function From<K, V>(m: map<K, V>): RxHashMap<K, V> {
    RxHashMap(m)
  }

  /** `Deref`: the map inside the wrapper. */
  function Deref<K, V>(r: RxHashMap<K, V>): map<K, V> {
    r.inner
  }

  /** Wrapping then dereferencing is the identity, and so is the converse. */
  lemma DerefFrom<K, V>(m: map<K, V>, r: RxHashMap<K, V>)
    ensures Deref(From(m)) == m
    ensures From(Deref(r)) == r
  {
  }

  /** `make_unrx`: read every entry's signal back into a plain map. */
  function MakeUnrx<K, V>(rx: RxHashMapRx<K, V>): (r: RxHashMap<K, V>)
    reads rx.outer, rx.outer.value.Values
    ensures r.inner.Keys == rx.outer.value.Keys
    ensures forall k :: k in r.inner ==> r.inner[k] == rx.outer.value[k].value
  {
    RxHashMap(map k | k in rx.outer.value :: rx.outer.value[k].value)
  }

  /**
   * `freeze`: collapse the reactive map, then serialise it (`serialise`
   * stands for `serde_json::to_string`). Being a function, it only reads
   * the signals.
   */
  function Freeze<K, V>(rx: RxHashMapRx<K, V>, serialise: RxHashMap<K, V> -> string): string
    reads rx.outer, rx.outer.value.Values
  {
    serialise(MakeUnrx(rx))
  }

  /**
   * `make_rx`: one fresh signal per key holding that key's value, all inside
   * a fresh outer signal. Collapsing the result gives back the map, and
   * freezing it is serialising the map.
   */
  method MakeRx<K, V>(m: RxHashMap<K, V>) returns (rx: RxHashMapRx<K, V>)
    ensures fresh(rx.outer)
    ensures forall k :: k in rx.outer.value ==> fresh(rx.outer.value[k])
    ensures rx.outer.value.Keys == m.inner.Keys
    ensures forall k :: k in m.inner ==> rx.outer.value[k].value == m.inner[k]
    ensures DistinctSignals(rx.outer.value)
    ensures MakeUnrx(rx) == m
    ensures forall serialise: RxHashMap<K, V> -> string {:trigger serialise(m)} :: Freeze(rx, serialise) == serialise(m)
  {
    var pending := m.inner.Keys;
    var cells: map<K, Signal<V>> := map[];
    while pending != {}
      invariant pending <= m.inner.Keys
      invariant cells.Keys == m.inner.Keys - pending
      invariant forall k :: k in cells ==> fresh(cells[k]) && cells[k].value == m.inner[k]
      invariant DistinctSignals(cells)
      decreases pending
    {
      var k :| k in pending;
      var cell := new Signal(m.inner[k]);
      cells := cells[k := cell];
      pending := pending - {k};
    }
    var outer := new Signal(cells);
    rx := RxHashMapRx(outer);
    assert MakeUnrx(rx).inner == m.inner;
  }

  /**
   * Freeze then thaw: with a deserialiser that inverts the serialiser, a
   * frozen reactive map thaws to exactly the map its signals hold.
   */
  lemma FreezeThaw<K, V>(rx: RxHashMapRx<K, V>, serialise: RxHashMap<K, V> -> string,
                         deserialise: string -> Result<RxHashMap<K, V>, string>)
    requires forall x {:trigger serialise(x)} :: deserialise(serialise(x)) == Ok(x)
    ensures deserialise(Freeze(rx, serialise)) == Ok(MakeUnrx(rx))
  {
  }
}
