/** The JSON kept in an order's raw state: a "local" part written by the engine and a "broker" part
    replaced by every refresh. The monitor aggregate is stored in the local part. */
module RawState {
  datatype Option<+T> = None | Some(value: T)

  /** Decoded JSON. Numbers are what a 64-bit float holds; Decimal is a string that reads as a
      decimal number and Text any other string. */
  datatype Json =
    | Null
    | Bool(truth: bool)
    | Number(number: real)
    | Decimal(decimal: real)
    | Text(text: string)
    | Array(items: seq<Json>)
    | Object(fields: map<string, Json>)

  datatype Raw = Malformed(text: string) | Parsed(json: Json)

  datatype AggregateState = AggregateState(quantity: int, filled: int, avg: real, commission: real)

  type Fields = map<string, Json>

  // ---------------------------------------------------------------- integers through a float64

  const TWO53: nat := 0x20_0000_0000_0000

  /** The spacing of 64-bit floats at magnitude m. */
  function Spacing(m: nat): (u: nat)
    ensures u > 0
  {
    if m < TWO53 then 1 else 2 * Spacing(m / 2)
  }

  /** Round to nearest, ties to even. */
  function RoundMagnitude(m: nat): nat {
    var u := Spacing(m);
    var q, r := m / u, m % u;
    if 2 * r < u || (2 * r == u && q % 2 == 0) then q * u else (q + 1) * u
  }

  /** The nearest multiple of the spacing, and of two equally near the even one. */
  lemma RoundsToNearest(m: nat) returns (q: nat)
    ensures
      var u, r := Spacing(m) as int, RoundMagnitude(m) as int;
      && r == q * u && -u <= 2 * (r - m) <= u && (2 * (r - m) == u || 2 * (m - r) == u ==> q % 2 == 0)
  {
    hide Spacing;
    var u := Spacing(m);
    Steps(m / u, u);
    assert m == m / u * u + m % u;
    q := if 2 * (m % u) < u || (2 * (m % u) == u && m / u % 2 == 0) then m / u else m / u + 1;
  }

  lemma Steps(q: nat, u: nat)
    ensures (q + 1) * u == q * u + u
  {
  }

  function Float64(n: int): int {
    if n < 0 then -(RoundMagnitude(-n) as int) else RoundMagnitude(n)
  }

  /** n survives being written as a JSON number and read back as a float64. */
  predicate Representable(n: int) {
    var m: nat := if n < 0 then -n else n;
    m % Spacing(m) == 0
  }

  lemma RoundsToItself(n: int)
    ensures Float64(n) == n <==> Representable(n)
  {
    var m: nat := if n < 0 then -n else n;
    var u := Spacing(m);
    var q, r := m / u, m % u;
    assert m == q * u + r;
    assert (q + 1) * u == q * u + u;
    assert q * u <= m < (q + 1) * u;
  }

  lemma SmallIsRepresentable(n: int)
    requires -(TWO53 as int) <= n <= TWO53
    ensures Representable(n)
  {
    if n == TWO53 || n == -(TWO53 as int) {
      assert Spacing(TWO53 / 2) == 1;
      assert Spacing(TWO53) == 2;
    }
  }

  // ---------------------------------------------------------------- reading

  function RootFields(raw: Raw): Fields {
    if raw.Parsed? && raw.json.Object? then raw.json.fields else map[]
  }

  predicate HasLocalObject(root: Fields) {
    "local" in root && root["local"].Object?
  }

  function Truncate(x: real): int {
    if x < 0.0 then -((-x).Floor) else x.Floor
  }

  lemma TruncatesTowardZero(x: real)
    ensures x >= 0.0 ==> 0.0 <= Truncate(x) as real <= x < (Truncate(x) + 1) as real
    ensures x <= 0.0 ==> (Truncate(x) - 1) as real < x <= Truncate(x) as real <= 0.0
  {
  }

  function IntegerOf(fields: Fields, key: string): Option<int> {
    if key !in fields then None
    else match fields[key]
      case Number(x) => Some(Truncate(x))
      case Decimal(x) => Some(Truncate(x))
      case _ => None
  }

  function DecimalOf(fields: Fields, key: string): real {
    if key !in fields then 0.0
    else match fields[key]
      case Number(x) => x
      case Decimal(x) => x
      case _ => 0.0
  }

  /** A decimal that is missing, or not a number, reads as nothing. */
  lemma NoDecimal(fields: Fields, key: string)
    ensures key !in fields || (!fields[key].Number? && !fields[key].Decimal?) ==> DecimalOf(fields, key) == 0.0
  {
  }

  function ReadContainer(container: Fields): Option<AggregateState> {
    if "monitor_aggregate" !in container || !container["monitor_aggregate"].Object? then None
    else
      var state := container["monitor_aggregate"].fields;
      var quantity, filled := IntegerOf(state, "quantity_lots"), IntegerOf(state, "filled_lots");
      if quantity.None? || filled.None? then None
      else Some(AggregateState(quantity.value, filled.value,
                               DecimalOf(state, "avg_fill_price"), DecimalOf(state, "commission")))
  }

  function ReadAggregate(raw: Raw): Option<AggregateState> {
    var root := RootFields(raw);
    if HasLocalObject(root) && ReadContainer(root["local"].fields).Some? then
      ReadContainer(root["local"].fields)
    else
      ReadContainer(root)
  }

  // ---------------------------------------------------------------- writing

  /** The fields a writer adds to: the local object, a new one next to a broker part, or the root. */
  function LocalFields(root: Fields): Fields {
    if HasLocalObject(root) then root["local"].fields
    else if "broker" in root then map[]
    else root
  }

  function PutLocal(root: Fields, local: Fields): Raw {
    if HasLocalObject(root) || "broker" in root then
      Parsed(Object(root["local" := Object(local)]))
    else
      Parsed(Object(local))
  }

  function EncodeAggregate(state: AggregateState): Json {
    Object(map["quantity_lots" := Number(Float64(state.quantity) as real),
               "filled_lots" := Number(Float64(state.filled) as real),
               "avg_fill_price" := Decimal(state.avg),
               "commission" := Decimal(state.commission)])
  }

  function WithAggregate(raw: Raw, state: AggregateState): Raw {
    var root := RootFields(raw);
    PutLocal(root, LocalFields(root)["monitor_aggregate" := EncodeAggregate(state)])
  }

  function FillQuotes(fields: Fields): seq<Json> {
    if "fill_quotes" in fields && fields["fill_quotes"].Array? then fields["fill_quotes"].items else []
  }

  /** A quote snapshot taken when a fill is noticed is appended to the local part. */
  function WithFillQuote(raw: Raw, quote: Json): Raw {
    var root := RootFields(raw);
    var local := LocalFields(root);
    PutLocal(root, local["fill_quotes" := Array(FillQuotes(local) + [quote])])
  }

  /** A replacement order inherits the snapshots of the order it replaces. */
  function CarryFillQuotes(raw: Raw, source: Raw): Raw {
    var root := RootFields(source);
    var quotes := FillQuotes(if HasLocalObject(root) then root["local"].fields else root);
    if quotes == [] then raw
    else
      var target := RootFields(raw);
      PutLocal(target, LocalFields(target)["fill_quotes" := Array(quotes)])
  }

  // ---------------------------------------------------------------- refreshing the broker part

  function Decode(raw: Raw): Json {
    match raw
    case Malformed(text) => if text == "" then Object(map[]) else Text(text)
    case Parsed(json) => json
  }

  function MergeRaw(local: Raw, broker: Raw): Raw {
    Parsed(Object(map["local" := Decode(local), "broker" := Decode(broker)]))
  }

  /** An order without raw state has no fields; any other text is kept as it is. */
  lemma EmptyIsNoFields(text: string)
    ensures Decode(Malformed("")) == Object(map[]) && (text != "" ==> Decode(Malformed(text)) == Text(text))
  {
  }

  function LocalRaw(raw: Raw): Raw {
    if !(raw.Parsed? && (raw.json.Object? || raw.json.Null?)) then raw
    else
      var root := RootFields(raw);
      if "local" in root then Parsed(root["local"])
      else if "local_quote" in root then Parsed(Object(map["local_quote" := root["local_quote"]]))
      else raw
  }

  function Refreshed(raw: Raw, broker: Raw): Raw {
    MergeRaw(LocalRaw(raw), broker)
  }

  function RefreshedBy(raw: Raw, brokers: seq<Raw>): Raw {
    if brokers == [] then raw
    else Refreshed(RefreshedBy(raw, brokers[..|brokers| - 1]), brokers[|brokers| - 1])
  }

  // ---------------------------------------------------------------- what the stored aggregate survives

  lemma EncodedReadsBack(container: Fields, state: AggregateState)
    ensures ReadContainer(container["monitor_aggregate" := EncodeAggregate(state)]) ==
            Some(state.(quantity := Float64(state.quantity), filled := Float64(state.filled)))
  {
    hide Float64;
    var encoded := EncodeAggregate(state).fields;
    assert IntegerOf(encoded, "quantity_lots") == Some(Float64(state.quantity));
    assert IntegerOf(encoded, "filled_lots") == Some(Float64(state.filled));
  }

  lemma ReadsBackRounded(raw: Raw, state: AggregateState)
    ensures ReadAggregate(WithAggregate(raw, state)) ==
            Some(state.(quantity := Float64(state.quantity), filled := Float64(state.filled)))
  {
    hide EncodeAggregate, ReadContainer, Float64;
    EncodedReadsBack(LocalFields(RootFields(raw)), state);
  }

  /** Writing the aggregate and reading it back is the identity, whatever raw state it is written
      to, exactly when both lot counts fit a float64. */
  lemma AggregateRoundTrip(raw: Raw, state: AggregateState)
    ensures ReadAggregate(WithAggregate(raw, state)) == Some(state)
            <==> Representable(state.quantity) && Representable(state.filled)
  {
    ReadsBackRounded(raw, state);
    RoundsToItself(state.quantity);
    RoundsToItself(state.filled);
  }

  /** Raw states a stored aggregate outlives a refresh in: written next to a broker part, into a
      local object, or at a root that holds neither "local" nor "local_quote". */
  predicate KeepsAggregate(raw: Raw) {
    var root := RootFields(raw);
    || HasLocalObject(root)
    || "broker" in root
    || ("local" !in root && "local_quote" !in root)
  }

  lemma AggregateSurvivesRefresh(raw: Raw, state: AggregateState, broker: Raw)
    requires Representable(state.quantity) && Representable(state.filled)
    ensures ReadAggregate(Refreshed(WithAggregate(raw, state), broker)) == Some(state) <==> KeepsAggregate(raw)
  {
    AggregateRoundTrip(raw, state);
    ReadsBackRounded(raw, state);
  }

  /** A refreshed state has a broker part, so from then on the aggregate outlives every refresh. */
  lemma RefreshedAgain(raw: Raw, state: AggregateState, broker: Raw, later: Raw)
    requires ReadAggregate(Refreshed(raw, broker)) == Some(state)
    ensures ReadAggregate(Refreshed(Refreshed(raw, broker), later)) == Some(state)
  {
    hide LocalRaw, Decode, ReadContainer;
    NoAggregateAtRoot(Decode(LocalRaw(raw)), Decode(broker));
    MergedLocal(Decode(LocalRaw(raw)), Decode(broker));
  }

  lemma NoAggregateAtRoot(local: Json, broker: Json)
    ensures ReadContainer(map["local" := local, "broker" := broker]) == None
  {
  }

  lemma MergedLocal(local: Json, broker: Json)
    ensures Decode(LocalRaw(Parsed(Object(map["local" := local, "broker" := broker])))) == local
  {
  }

  lemma {:induction false} AggregateSurvivesRefreshes(raw: Raw, state: AggregateState, brokers: seq<Raw>)
    requires KeepsAggregate(raw)
    requires Representable(state.quantity) && Representable(state.filled)
    ensures ReadAggregate(RefreshedBy(WithAggregate(raw, state), brokers)) == Some(state)
  {
    hide KeepsAggregate, WithAggregate, ReadAggregate, Refreshed, Representable;
    if brokers == [] {
      AggregateRoundTrip(raw, state);
    } else {
      var before, last := brokers[..|brokers| - 1], brokers[|brokers| - 1];
      AggregateSurvivesRefreshes(raw, state, before);
      if before == [] {
        AggregateSurvivesRefresh(raw, state, last);
      } else {
        var earlier := RefreshedBy(WithAggregate(raw, state), before[..|before| - 1]);
        RefreshedAgain(earlier, state, before[|before| - 1], last);
      }
    }
  }

  /** A refreshed state that inherits the fill quotes of what it became is what it became. */
  lemma CarriedOntoItself(raw: Raw, broker: Raw, quote: Option<Json>, state: AggregateState)
    ensures
      var refreshed := Refreshed(raw, broker);
      var noted := if quote.Some? then WithFillQuote(refreshed, quote.value) else refreshed;
      var stored := WithAggregate(noted, state);
      WithAggregate(CarryFillQuotes(refreshed, stored), state) == stored
  {
    hide LocalRaw, Decode, EncodeAggregate;
    var local := LocalFields(RootFields(Refreshed(raw, broker)));
    if quote.None? && FillQuotes(local) != [] {
      assert local["fill_quotes" := Array(FillQuotes(local))] == local;
    }
  }

  lemma FillQuotesKeepAggregate(raw: Raw, quote: Json, source: Raw)
    ensures ReadAggregate(WithFillQuote(raw, quote)) == ReadAggregate(raw)
    ensures ReadAggregate(CarryFillQuotes(raw, source)) == ReadAggregate(raw)
  {
  }
}
