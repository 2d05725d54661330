/**
 The exchange table: one input exchange per dataset row, with the constant
 fields, the process name and id, and the flow and provider columns looked up
 from the transport-mode mapping.
 */
module Exchange {
  import opened Wrappers
  import Text
  import Sctg

  /** One row of the weighted-distance dataset once its unused columns are dropped. */
  datatype Record = Record(commodity: string, mode: string, weightedDistance: real)

  /**
   One row of `df_olca`. Columns that pandas may fill with NaN are `Option`s;
   `amount` is only ever copied.
   */
  datatype Row = Row(
    sctg: Option<Sctg.Code>,
    commodity: string,
    mode: string,
    processId: string,
    processCategory: string,
    processName: string,
    flowUuid: Option<string>,
    flowName: Option<string>,
    context: string,
    isInput: bool,
    flowType: string,
    reference: bool,
    defaultProvider: Option<string>,
    defaultProviderName: Option<string>,
    amount: real,
    unit: string,
    avoidedProduct: bool,
    exchangeDqi: string,
    location: string,
    year: int,
    countryCode: string)

  /** One entry of `flow_dict`, keyed by transport mode. */
  datatype FlowMapping = FlowMapping(name: string, id: string, provider: string)

  /**
   What the script reads from files or obtains from helpers it imports: the
   flow metadata's category (absent when the key is missing), the formatted
   exchange data-quality score, the ISO-3166 alpha-3 code matched to "US",
   `flow_dict`, and the provider ids of `provider_dict` keyed by flow name.
   */
  datatype Settings = Settings(
    category: Option<string>,
    flowDqi: string,
    countryCode: string,
    flowDict: map<string, FlowMapping>,
    providerIds: map<string, string>)

  /** `make_uuid`: deterministic, otherwise unknown. */
  type Uuid = seq<string> -> string

  const ProcessNamePrefix := "Transport; average mix; "
  const InputUnit := "kg*km"
  const InputContext := "Technosphere Flows / 48-49: Transportation and Warehousing"
  const ProductFlow := "PRODUCT_FLOW"
  const Location := "US"
  const Year := 2017

  /** `f'{meta.get("Category")}'`: a missing key formats as "None". */
  function CategoryText(category: Option<string>): string {
    match category
    case Some(c) => c
    case None => "None"
  }

  /** `Series.map(d)`: a key missing from `d`, or NaN, gives NaN. */
  function Lookup<V>(d: map<string, V>, key: Option<string>): (r: Option<V>)
    ensures r.Some? <==> key.Some? && key.value in d
    ensures r.Some? ==> r.value == d[key.value]
  {
    if key.Some? && key.value in d then Some(d[key.value]) else None
  }

  function NameOf(m: FlowMapping): string { m.name }
  function IdOf(m: FlowMapping): string { m.id }
  function ProviderOf(m: FlowMapping): string { m.provider }

  function MapOption<A, B>(o: Option<A>, f: A -> B): Option<B> {
    match o
    case Some(a) => Some(f(a))
    case None => None
  }

  /** The dataset columns an exchange row still carries. */
  function Original(row: Row): Record {
    Record(row.commodity, row.mode, row.amount)
  }

  /** The fields every input exchange has after enrichment. */
  predicate IsInputExchange(row: Row) {
    && row.isInput
    && !row.reference
    && row.unit == InputUnit
    && row.context == InputContext
    && row.flowType == ProductFlow
    && !row.avoidedProduct
    && row.location == Location
    && row.year == Year
  }

  /** The enrichment of one dataset row into an input exchange. */
  function Enrich(rec: Record, s: Settings, uuid: Uuid): (row: Row)
    ensures IsInputExchange(row)
    ensures Original(row) == rec
    ensures row.processCategory == CategoryText(s.category)
    ensures row.exchangeDqi == s.flowDqi && row.countryCode == s.countryCode
    ensures row.sctg == Sctg.Classify(rec.commodity)
    ensures row.processName == ProcessNamePrefix + Text.Lower(rec.commodity)
    ensures row.processId == uuid([row.processName])
    ensures row.flowName.Some? <==> rec.mode in s.flowDict
    ensures row.flowUuid.Some? <==> rec.mode in s.flowDict
    ensures row.defaultProviderName.Some? <==> rec.mode in s.flowDict
    ensures rec.mode in s.flowDict ==>
              && row.flowName == Some(s.flowDict[rec.mode].name)
              && row.flowUuid == Some(s.flowDict[rec.mode].id)
              && row.defaultProviderName == Some(s.flowDict[rec.mode].provider)
    ensures row.defaultProvider.Some? <==> row.flowName.Some? && row.flowName.value in s.providerIds
    ensures row.defaultProvider.Some? ==> row.defaultProvider.value == s.providerIds[row.flowName.value]
  {
    var name := ProcessNamePrefix + Text.Lower(rec.commodity);
    var mapping := Lookup(s.flowDict, Some(rec.mode));
    var flowName := MapOption(mapping, NameOf);
    Row(
      sctg := Sctg.Classify(rec.commodity),
      commodity := rec.commodity,
      mode := rec.mode,
      processId := uuid([name]),
      processCategory := CategoryText(s.category),
      processName := name,
      flowUuid := MapOption(mapping, IdOf),
      flowName := flowName,
      context := InputContext,
      isInput := true,
      flowType := ProductFlow,
      reference := false,
      defaultProvider := Lookup(s.providerIds, flowName),
      defaultProviderName := MapOption(mapping, ProviderOf),
      amount := rec.weightedDistance,
      unit := InputUnit,
      avoidedProduct := false,
      exchangeDqi := s.flowDqi,
      location := Location,
      year := Year,
      countryCode := s.countryCode)
  }

  /** The exchange table built from the whole dataset, row for row. */
  function EnrichAll(recs: seq<Record>, s: Settings, uuid: Uuid): (rows: seq<Row>)
    ensures |rows| == |recs|
    ensures forall i :: 0 <= i < |recs| ==> rows[i] == Enrich(recs[i], s, uuid)
  {
    seq(|recs|, i requires 0 <= i < |recs| => Enrich(recs[i], s, uuid))
  }

  /**
   Rows with equal process names get equal process ids, so commodities that
   differ only in letter case land in the same process.
   */
  lemma EqualNamesShareProcess(recs: seq<Record>, s: Settings, uuid: Uuid)
    ensures var rows := EnrichAll(recs, s, uuid);
            && (forall i, j :: 0 <= i < |rows| && 0 <= j < |rows| && rows[i].processName == rows[j].processName ==>
                  rows[i].processId == rows[j].processId)
            && (forall i, j :: 0 <= i < |recs| && 0 <= j < |recs| && Text.Lower(recs[i].commodity) == Text.Lower(recs[j].commodity) ==>
                  rows[i].processId == rows[j].processId)
  {
  }
}
