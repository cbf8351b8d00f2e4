/**
 The nRF52 peripheral part of the ARMv7-M vector table (the external
 interrupts, section B1.5.3 of the ARMv7-M Architecture Reference Manual),
 the weak handler declarations that alias every named line to
 `Dummy_Handler`, and the link-time resolution of the table into
 addresses: a same-named definition elsewhere in the image overrides the
 weak one, every other named slot falls back to the dummy handler, and a
 reserved slot is the literal 0.
 */
module PeripheralInterrupts {
  import opened Words

  /** A table slot: a handler symbol, or the reserved literal 0. */
  datatype Entry = Reserved | Named(name: string)

  /** A word-sized code address on the Cortex-M4 core of the nRF52. */
  type Addr = U32

  const DUMMY_HANDLER: string := "Dummy_Handler"

  /** The handler symbols, one per named interrupt line. */
  const POWER_CLOCK_HANDLER: string := "POWER_CLOCK_Handler"
  const RADIO_HANDLER: string := "RADIO_Handler"
  const UART0_HANDLER: string := "UART0_Handler"
  const SPI0_TWI0_HANDLER: string := "SPI0_TWI0_Handler"
  const SPI1_TWI1_HANDLER: string := "SPI1_TWI1_Handler"
  const GPIOTE_HANDLER: string := "GPIOTE_Handler"
  const ADC_HANDLER: string := "ADC_Handler"
  const TIMER0_HANDLER: string := "TIMER0_Handler"
  const TIMER1_HANDLER: string := "TIMER1_Handler"
  const TIMER2_HANDLER: string := "TIMER2_Handler"
  const RTC0_HANDLER: string := "RTC0_Handler"
  const TEMP_HANDLER: string := "TEMP_Handler"
  const RNG_HANDLER: string := "RNG_Handler"
  const ECB_HANDLER: string := "ECB_Handler"
  const CCM_AAR_HANDLER: string := "CCM_AAR_Handler"
  const WDT_HANDLER: string := "WDT_Handler"
  const RTC1_HANDLER: string := "RTC1_Handler"
  const QDEC_HANDLER: string := "QDEC_Handler"
  const LPCOMP_HANDLER: string := "LPCOMP_Handler"
  const SWI0_HANDLER: string := "SWI0_Handler"
  const SWI1_HANDLER: string := "SWI1_Handler"
  const SWI2_HANDLER: string := "SWI2_Handler"
  const SWI3_HANDLER: string := "SWI3_Handler"
  const SWI4_HANDLER: string := "SWI4_Handler"
  const SWI5_HANDLER: string := "SWI5_Handler"

  /** `PERIPHERAL_INTERRUPT_VECTORS`: slot i is external interrupt i. */
  const PERIPHERAL_INTERRUPT_VECTORS: seq<Entry> := [
    Named(POWER_CLOCK_HANDLER),
    Named(RADIO_HANDLER),
    Named(UART0_HANDLER),
    Named(SPI0_TWI0_HANDLER),
    Named(SPI1_TWI1_HANDLER),
    Reserved,
    Named(GPIOTE_HANDLER),
    Named(ADC_HANDLER),
    Named(TIMER0_HANDLER),
    Named(TIMER1_HANDLER),
    Named(TIMER2_HANDLER),
    Named(RTC0_HANDLER),
    Named(TEMP_HANDLER),
    Named(RNG_HANDLER),
    Named(ECB_HANDLER),
    Named(CCM_AAR_HANDLER),
    Named(WDT_HANDLER),
    Named(RTC1_HANDLER),
    Named(QDEC_HANDLER),
    Named(LPCOMP_HANDLER),
    Named(SWI0_HANDLER),
    Named(SWI1_HANDLER),
    Named(SWI2_HANDLER),
    Named(SWI3_HANDLER),
    Named(SWI4_HANDLER),
    Named(SWI5_HANDLER),
    Reserved,
    Reserved,
    Reserved,
    Reserved,
    Reserved,
    Reserved
  ]

  /** A declaration `void symbol(void) __attribute__((weak, alias(target)))`. */
  datatype WeakAlias = WeakAlias(symbol: string, target: string)

  /** `PERIPHERAL_INTERRUPT_HANDLERS`, in declaration order. */
  const PERIPHERAL_INTERRUPT_HANDLERS: seq<WeakAlias> := [
    WeakAlias(POWER_CLOCK_HANDLER, DUMMY_HANDLER),
    WeakAlias(RADIO_HANDLER, DUMMY_HANDLER),
    WeakAlias(UART0_HANDLER, DUMMY_HANDLER),
    WeakAlias(SPI0_TWI0_HANDLER, DUMMY_HANDLER),
    WeakAlias(SPI1_TWI1_HANDLER, DUMMY_HANDLER),
    WeakAlias(GPIOTE_HANDLER, DUMMY_HANDLER),
    WeakAlias(ADC_HANDLER, DUMMY_HANDLER),
    WeakAlias(TIMER0_HANDLER, DUMMY_HANDLER),
    WeakAlias(TIMER1_HANDLER, DUMMY_HANDLER),
    WeakAlias(TIMER2_HANDLER, DUMMY_HANDLER),
    WeakAlias(RTC0_HANDLER, DUMMY_HANDLER),
    WeakAlias(TEMP_HANDLER, DUMMY_HANDLER),
    WeakAlias(RNG_HANDLER, DUMMY_HANDLER),
    WeakAlias(ECB_HANDLER, DUMMY_HANDLER),
    WeakAlias(CCM_AAR_HANDLER, DUMMY_HANDLER),
    WeakAlias(WDT_HANDLER, DUMMY_HANDLER),
    WeakAlias(RTC1_HANDLER, DUMMY_HANDLER),
    WeakAlias(QDEC_HANDLER, DUMMY_HANDLER),
    WeakAlias(LPCOMP_HANDLER, DUMMY_HANDLER),
    WeakAlias(SWI0_HANDLER, DUMMY_HANDLER),
    WeakAlias(SWI1_HANDLER, DUMMY_HANDLER),
    WeakAlias(SWI2_HANDLER, DUMMY_HANDLER),
    WeakAlias(SWI3_HANDLER, DUMMY_HANDLER),
    WeakAlias(SWI4_HANDLER, DUMMY_HANDLER),
    WeakAlias(SWI5_HANDLER, DUMMY_HANDLER)
  ]

  /** The symbols of a table's named slots, in slot order. */
  function NamedSlots(table: seq<Entry>): (names: seq<string>)
    ensures |names| <= |table|
  {
    if table == [] then []
    else
      var rest := NamedSlots(table[1..]);
      assert table == [table[0]] + table[1..];
      if table[0].Named? then [table[0].name] + rest else rest
  }

  /** The symbols a list of weak declarations declares, in order. */
  function Declared(decls: seq<WeakAlias>): (symbols: seq<string>)
    ensures |symbols| == |decls|
  {
    seq(|decls|, i requires 0 <= i < |decls| => decls[i].symbol)
  }

  /** Link-time resolution of a table: a reserved slot is 0, a named slot
      the address of the program's own definition of that symbol when
      there is one, and otherwise that of the dummy handler. */
  function Resolve(table: seq<Entry>, overrides: map<string, Addr>, dummy: Addr): (addrs: seq<Addr>)
    ensures |addrs| == |table|
  {
    seq(|table|, i requires 0 <= i < |table| =>
      match table[i]
      case Reserved => 0
      case Named(n) => if n in overrides then overrides[n] else dummy)
  }

  // ---------------------------------------------------------------------
  // The shape of the table

  /** 32 slots; exactly slot 5 and slots 26..31 are reserved. */
  lemma VectorTableShape()
    ensures |PERIPHERAL_INTERRUPT_VECTORS| == 32
    ensures forall i :: 0 <= i < 32 ==>
      (PERIPHERAL_INTERRUPT_VECTORS[i].Reserved? <==> i == 5 || 26 <= i)
  {
  }

  /** Some lines sit at the index the hardware assigns them. */
  lemma VectorTablePlacement()
    ensures PERIPHERAL_INTERRUPT_VECTORS[0] == Named("POWER_CLOCK_Handler")
    ensures PERIPHERAL_INTERRUPT_VECTORS[1] == Named("RADIO_Handler")
    ensures PERIPHERAL_INTERRUPT_VECTORS[2] == Named("UART0_Handler")
    ensures PERIPHERAL_INTERRUPT_VECTORS[6] == Named("GPIOTE_Handler")
    ensures PERIPHERAL_INTERRUPT_VECTORS[25] == Named("SWI5_Handler")
  {
  }

  /** No two named slots share a symbol. */
  ghost predicate DistinctNames(table: seq<Entry>) {
    forall i, j :: 0 <= i < j < |table| && table[i].Named? && table[j].Named? ==>
      table[i].name != table[j].name
  }

  /** Named slots of two tables laid end to end. */
  lemma {:induction false} NamedSlotsAppend(a: seq<Entry>, b: seq<Entry>)
    ensures NamedSlots(a + b) == NamedSlots(a) + NamedSlots(b)
  {
    if a == [] {
      assert a + b == b;
    } else {
      assert (a + b)[1..] == a[1..] + b;
      NamedSlotsAppend(a[1..], b);
    }
  }

  /** A run of named slots contributes all of its symbols, in order; a run
      of reserved slots contributes none. */
  lemma {:induction false} NamedSlotsOfRun(table: seq<Entry>)
    ensures (forall i :: 0 <= i < |table| ==> table[i].Named?) ==>
      NamedSlots(table) == seq(|table|, i requires 0 <= i < |table| => table[i].name)
    ensures (forall i :: 0 <= i < |table| ==> table[i].Reserved?) ==> NamedSlots(table) == []
  {
    if table != [] {
      NamedSlotsOfRun(table[1..]);
    }
  }

  /** The slot of the k-th weak declaration: the declarations skip the
      reserved slot 5 and stop before the reserved tail. */
  function DeclarationSlot(k: nat): nat {
    if k < 5 then k else k + 1
  }

  /** Every weak declaration aliases the dummy handler. */
  lemma DeclarationsAliasDummy()
    ensures |PERIPHERAL_INTERRUPT_HANDLERS| == 25
    ensures forall k :: 0 <= k < 25 ==> PERIPHERAL_INTERRUPT_HANDLERS[k].target == DUMMY_HANDLER
  {
    forall k | 0 <= k < 25 ensures PERIPHERAL_INTERRUPT_HANDLERS[k].target == DUMMY_HANDLER {
      assert k == 0 || k == 1 || k == 2 || k == 3 || k == 4 || k == 5 || k == 6 || k == 7 || k == 8 || k == 9 || k == 10 || k == 11 || k == 12 || k == 13 || k == 14 || k == 15 || k == 16 || k == 17 || k == 18 || k == 19 || k == 20 || k == 21 || k == 22 || k == 23 || k == 24;
    }
  }

  /** The k-th weak declaration names the line at slot DeclarationSlot(k). */
  lemma DeclarationsNameSlots()
    ensures forall k :: 0 <= k < 25 ==>
      PERIPHERAL_INTERRUPT_VECTORS[DeclarationSlot(k)] == Named(PERIPHERAL_INTERRUPT_HANDLERS[k].symbol)
  {
    NameSlotsFrom0();
    NameSlotsFrom9();
    NameSlotsFrom17();
  }

  lemma NameSlotsFrom0()
    ensures forall k :: 0 <= k < 9 ==>
      PERIPHERAL_INTERRUPT_VECTORS[DeclarationSlot(k)] == Named(PERIPHERAL_INTERRUPT_HANDLERS[k].symbol)
  {
    var v, h := PERIPHERAL_INTERRUPT_VECTORS, PERIPHERAL_INTERRUPT_HANDLERS;
    forall k | 0 <= k < 9 ensures v[DeclarationSlot(k)] == Named(h[k].symbol) {
      assert k == 0 || k == 1 || k == 2 || k == 3 || k == 4 || k == 5 || k == 6 || k == 7 || k == 8;
    }
  }

  lemma NameSlotsFrom9()
    ensures forall k :: 9 <= k < 17 ==>
      PERIPHERAL_INTERRUPT_VECTORS[DeclarationSlot(k)] == Named(PERIPHERAL_INTERRUPT_HANDLERS[k].symbol)
  {
    var v, h := PERIPHERAL_INTERRUPT_VECTORS, PERIPHERAL_INTERRUPT_HANDLERS;
    forall k | 9 <= k < 17 ensures v[DeclarationSlot(k)] == Named(h[k].symbol) {
      assert k == 9 || k == 10 || k == 11 || k == 12 || k == 13 || k == 14 || k == 15 || k == 16;
    }
  }

  lemma NameSlotsFrom17()
    ensures forall k :: 17 <= k < 25 ==>
      PERIPHERAL_INTERRUPT_VECTORS[DeclarationSlot(k)] == Named(PERIPHERAL_INTERRUPT_HANDLERS[k].symbol)
  {
    var v, h := PERIPHERAL_INTERRUPT_VECTORS, PERIPHERAL_INTERRUPT_HANDLERS;
    forall k | 17 <= k < 25 ensures v[DeclarationSlot(k)] == Named(h[k].symbol) {
      assert k == 17 || k == 18 || k == 19 || k == 20 || k == 21 || k == 22 || k == 23 || k == 24;
    }
  }

  /** `table` has the nRF52 layout (32 slots, slot 5 and slots 26..31
      reserved) and its k-th named slot is the k-th symbol of `decls`. */
  ghost predicate NrfLayout(table: seq<Entry>, decls: seq<WeakAlias>) {
    && |table| == 32 && |decls| == 25
    && (forall i :: 0 <= i < 32 ==> (table[i].Reserved? <==> i == 5 || 26 <= i))
    && (forall k :: 0 <= k < 25 ==> table[DeclarationSlot(k)] == Named(decls[k].symbol))
  }

  /** A table laid out as the nRF52 one (named slots 0..4 and 6..25) whose
      k-th named slot is the k-th declared symbol has exactly the declared
      symbols as its named slots. */
  lemma {:induction false} NamedSlotsOfLayout(table: seq<Entry>, decls: seq<WeakAlias>)
    requires NrfLayout(table, decls)
    ensures NamedSlots(table) == Declared(decls)
  {
    var low, gap, high, tail := table[..5], table[5..6], table[6..26], table[26..];
    assert table == low + gap + high + tail;
    NamedSlotsAppend(low + gap + high, tail);
    NamedSlotsAppend(low + gap, high);
    NamedSlotsAppend(low, gap);
    assert forall i :: 0 <= i < 5 ==> low[i] == table[i];
    NamedSlotsOfRun(low);
    assert gap[0] == table[5];
    NamedSlotsOfRun(gap);
    assert forall i :: 0 <= i < 20 ==> high[i] == table[i + 6];
    NamedSlotsOfRun(high);
    assert forall i :: 0 <= i < 6 ==> tail[i] == table[i + 26];
    NamedSlotsOfRun(tail);
    var names := NamedSlots(low) + NamedSlots(high);
    assert NamedSlots(table) == names;
    forall k | 0 <= k < 25 ensures names[k] == Declared(decls)[k] {
      if k < 5 {
        assert names[k] == low[k].name;
      } else {
        assert names[k] == high[k - 5].name;
      }
    }
  }

  /** The named slots are exactly the weakly declared symbols, in the same
      order. */
  lemma VectorTableMatchesDeclarations()
    ensures NamedSlots(PERIPHERAL_INTERRUPT_VECTORS) == Declared(PERIPHERAL_INTERRUPT_HANDLERS)
  {
    VectorTableShape();
    DeclarationsAliasDummy();
    DeclarationsNameSlots();
    NamedSlotsOfLayout(PERIPHERAL_INTERRUPT_VECTORS, PERIPHERAL_INTERRUPT_HANDLERS);
  }

  /** No two weak declarations declare the same symbol. */
  lemma DeclarationsDistinct()
    ensures forall k, l :: 0 <= k < l < |PERIPHERAL_INTERRUPT_HANDLERS| ==>
      PERIPHERAL_INTERRUPT_HANDLERS[k].symbol != PERIPHERAL_INTERRUPT_HANDLERS[l].symbol
  {
  }

  /** In a table with the nRF52 layout, distinct declarations make distinct
      named slots. */
  lemma DistinctNamesOfLayout(table: seq<Entry>, decls: seq<WeakAlias>)
    requires NrfLayout(table, decls)
    requires forall k, l :: 0 <= k < l < |decls| ==> decls[k].symbol != decls[l].symbol
    ensures DistinctNames(table)
  {
    forall i, j | 0 <= i < j < |table| && table[i].Named? && table[j].Named?
      ensures table[i].name != table[j].name
    {
      var k, l := if i < 5 then i else i - 1, if j < 5 then j else j - 1;
      assert table[DeclarationSlot(k)] == Named(decls[k].symbol);
      assert table[DeclarationSlot(l)] == Named(decls[l].symbol);
    }
  }

  /** The 25 named slots of the nRF52 table are pairwise distinct. */
  lemma VectorTableNamesDistinct()
    ensures DistinctNames(PERIPHERAL_INTERRUPT_VECTORS)
  {
    VectorTableShape();
    DeclarationsAliasDummy();
    DeclarationsNameSlots();
    DeclarationsDistinct();
    DistinctNamesOfLayout(PERIPHERAL_INTERRUPT_VECTORS, PERIPHERAL_INTERRUPT_HANDLERS);
  }

  // ---------------------------------------------------------------------
  // Resolution

  /** Without overrides every named slot holds the dummy handler and every
      reserved slot holds 0. */
  lemma ResolveWithoutOverrides(dummy: Addr)
    ensures var addrs := Resolve(PERIPHERAL_INTERRUPT_VECTORS, map[], dummy);
      forall i :: 0 <= i < 32 ==>
        addrs[i] == if i == 5 || 26 <= i then 0 else dummy
  {
    VectorTableShape();
  }

  /** A reserved slot is 0 whatever is defined, and a named slot is never 0
      while the dummy handler and every override are real addresses. */
  lemma ResolveReservedIsZero(table: seq<Entry>, overrides: map<string, Addr>, dummy: Addr, i: nat)
    requires i < |table|
    requires dummy != 0 && 0 !in overrides.Values
    ensures Resolve(table, overrides, dummy)[i] == 0 <==> table[i].Reserved?
  {
    if table[i].Named? && table[i].name in overrides {
      assert overrides[table[i].name] in overrides.Values;
    }
  }

  /** Defining the symbol of one named slot changes that slot only. */
  lemma ResolveOverrideOneSlot(table: seq<Entry>, overrides: map<string, Addr>, dummy: Addr,
                               name: string, addr: Addr, i: nat)
    requires DistinctNames(table)
    requires i < |table| && table[i] == Named(name)
    ensures var before := Resolve(table, overrides, dummy);
      var after := Resolve(table, overrides[name := addr], dummy);
      after[i] == addr && forall j :: 0 <= j < |table| && j != i ==> after[j] == before[j]
  {
  }

  /** Defining the symbol of the k-th weak declaration redirects exactly
      one interrupt line, the one at slot DeclarationSlot(k); every other
      slot, the reserved ones included, resolves as before. */
  lemma OverrideDeclaredSymbol(overrides: map<string, Addr>, dummy: Addr, k: nat, addr: Addr)
    requires k < |PERIPHERAL_INTERRUPT_HANDLERS|
    ensures var symbol := PERIPHERAL_INTERRUPT_HANDLERS[k].symbol;
      var before := Resolve(PERIPHERAL_INTERRUPT_VECTORS, overrides, dummy);
      var after := Resolve(PERIPHERAL_INTERRUPT_VECTORS, overrides[symbol := addr], dummy);
      && PERIPHERAL_INTERRUPT_VECTORS[DeclarationSlot(k)] == Named(symbol)
      && after[DeclarationSlot(k)] == addr
      && forall j :: 0 <= j < 32 && j != DeclarationSlot(k) ==> after[j] == before[j]
  {
    DeclarationsAliasDummy();
    DeclarationsNameSlots();
    VectorTableNamesDistinct();
    ResolveOverrideOneSlot(PERIPHERAL_INTERRUPT_VECTORS, overrides, dummy,
      PERIPHERAL_INTERRUPT_HANDLERS[k].symbol, addr, DeclarationSlot(k));
  }
}
