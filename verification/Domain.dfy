/** The values that cross component boundaries: targets, plans, replies and observations. */
module Domain {
  import opened Text

  type Id = nat
  type Time = int  // seconds

  datatype Target = Target(manufacturer: string, oui: string, productClass: string,
                           firmware: Option<string>, model: Option<string>)

  datatype Kind = GetNames | GetValues

  datatype Scope = DeviceInfo | Discovery | Wan | Optical

  datatype Plan = Plan(profileId: string, profileVersion: string, target: Target,
                       names: seq<string>, path: string, scope: Scope)

  datatype Parameter = Parameter(name: string, value: string, xsdType: string)

  datatype Info = Info(name: string, writable: bool)

  datatype Reply =
    | FaultReply(rpcId: string, code: int)
    | NamesReply(rpcId: string, names: seq<Info>)
    | ValuesReply(rpcId: string, parameters: seq<Parameter>)

  datatype Item = Item(name: string, value: Option<string>, writable: Option<bool>)

  function ParameterName(p: Parameter): string { p.name }

  function NameSet(ps: seq<Parameter>): set<string> { set q | q in ps :: q.name }

  function SetOf(names: seq<string>): set<string> { set n | n in names }

  function InfoName(i: Info): string { i.name }

  function ItemName(i: Item): string { i.name }

  function ItemNames(items: seq<Item>): (r: seq<string>)
    ensures |r| == |items| && forall i | 0 <= i < |items| :: r[i] == items[i].name
  {
    seq(|items|, i requires 0 <= i < |items| => items[i].name)
  }

  /** No name twice: what the parser of replies guarantees of every reply it accepts. */
  ghost predicate DistinctReply(r: Reply) {
    match r
    case FaultReply(_, _) => true
    case NamesReply(_, names) => DistinctBy(InfoName, names)
    case ValuesReply(_, parameters) => DistinctBy(ParameterName, parameters)
  }

  // ----- Inventory -----

  datatype InvalidReason = EmptyText | TooLong | ControlCharacter | ConflictingText

  datatype TextObservation =
    | NotReported
    | InvalidText(source: Option<string>, reason: InvalidReason)
    | ValidText(value: string, valueSource: string)

  datatype Method = Inform | GetParameterValues

  datatype Inventory = Inventory(model: TextObservation, firmware: TextObservation, hardware: TextObservation,
                                 profileId: string, profileVersion: string, receivedAt: Time,
                                 via: Method, operation: Option<Id>)

  // ----- Telemetry -----

  datatype TelemetryName = Ipv4 | Ipv6 | Mac | Dns | ConnectionStatus | ServiceList | TransportType | RxPower | TxPower

  datatype TelemetryState = Valid | Unavailable | Invalid | Unverified

  datatype TelemetryReason =
    | Empty | InvalidIp | InvalidMac | InvalidDns | InvalidNumber | InvalidType
    | OutOfRange | UnverifiedUnit | ConflictingValues

  datatype TelemetryValue = Label(text: string) | Number(number: int) | Labels(texts: seq<string>)

  datatype TelemetryObservation = TelemetryObservation(
    name: TelemetryName, state: TelemetryState, source: string, value: Option<TelemetryValue>,
    dBm: bool, reason: Option<TelemetryReason>, sources: seq<string>)

  datatype TelemetryKind = WanKind | OpticalKind

  datatype Collection = Collection(kind: TelemetryKind, path: string, profileId: string, profileVersion: string,
                                   receivedAt: Time, operation: Id, fields: seq<TelemetryObservation>)
}
