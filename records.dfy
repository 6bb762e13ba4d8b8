/**
 * Building one synthetic log record (`generate_log_record` and `generate_fake_data`,
 * which both scripts define with the same body). Each script declares its own record
 * template and its own module-level choice lists; those form a `Profile`. The short
 * lists written inline in `generate_fake_data` are constants here.
 *
 * Every random choice is a caller-supplied draw: the element `random.choice`
 * returned, the integer `random.randint` returned, or a 128-bit number standing
 * for a `uuid4()`. Building a record needs nothing of the draws; the predicates
 * `DataDrawsOk` and `RecordDrawsOk` say where the draws lie, and the lemmas show
 * that records built from such draws have the documented shape.
 */
module Records {
  import opened Digits
  import opened Calendar
  import opened TimeFormat
  import opened Json

  /**
   * A script's module-level constants: `TEMPLATE`, `CLIENTS`, `DOCUMENT_DEFINITIONS`,
   * `TEMPLATE_CODES`, `TEMPLATE_NAMES`, `LOCALES`, `NAMESPACES`, `PODS`, `LOG_TYPES`,
   * `SEVERITIES` and `IDENTIFIERS`.
   */
  datatype Profile = Profile(
    template: Record, clients: seq<string>, documentDefinitions: seq<string>, templateCodes: seq<string>,
    templateNames: seq<string>, locales: seq<string>, namespaces: seq<string>, pods: seq<string>,
    logTypes: seq<string>, severities: seq<string>, identifiers: seq<string>)

  /** The lists both scripts declare with the same contents. */
  const Clients: seq<string> :=
    ["contoso Standard PIB", "contoso Premium Client", "Enterprise Solutions GmbH", "Financial Services AG", "Insurance Corp"]
  const DocumentDefinitions: seq<string> :=
    ["contoso_standard_pib", "annual_report", "quarterly_statement", "fund_factsheet", "portfolio_summary"]
  const TemplateCodes: seq<string> :=
    ["aktie_stammaktie", "bond_certificate", "fund_report", "etf_factsheet", "derivative_notice"]
  const TemplateNames: seq<string> :=
    ["Aktie - Stammaktie", "Bond Certificate", "Fund Report", "ETF Factsheet", "Derivative Notice"]
  const Locales: seq<string> := ["de_DE", "en_US", "fr_FR", "it_IT", "es_ES"]
  const LogTypes: seq<string> := ["DocGeneration", "TemplateLoad", "DataFetch", "PDFRender", "CacheHit"]
  const Severities: seq<string> := ["info", "warning", "debug", "error"]
  const Identifiers: seq<string> :=
    ["DE0007100000", "DE0008404005", "DE0005140008", "DE0007164600", "DE0005552004", "LU0378449770", "IE00B4L5Y983"]

  /** The lists written inline in `generate_fake_data`. */
  const ApiTypes: seq<string> := ["REST", "SOAP", "GraphQL"]
  const AuthorizationModes: seq<string> := ["AuthorizedOnly", "Anonymous", "Token"]
  const DataClassifications: seq<string> := ["Public", "Internal", "Confidential"]
  const ExternalSources: seq<string> := ["", "bloomberg", "refinitiv", "internal"]
  const MediaTypes: seq<string> := ["PDF", "HTML", "DOCX"]
  const SourceActions: seq<string> := ["DocumentGeneration", "TemplatePreview", "BatchProcess"]
  const SourceCategories: seq<string> := ["API", "Scheduler", "Manual"]

  /** The template fields a record overwrites; every other template field is copied unchanged. */
  const Overwritten: set<string> := {"namespace", "pod", "severity", "podIp", "host"}

  /** The keys of the `data` object: every one is always present. */
  const DataKeys: set<string> := {
    "apiType", "authorizationMode", "backendGui", "client", "contentClient", "dataClassification",
    "documentContentLength", "documentDefinition", "documentName", "externalSource", "generationEngine",
    "infondsVersion", "locale", "logType", "mediaType", "pageConfigurationCode", "serialNumber",
    "sourceAction", "sourceCategory", "templateAuthorizationDate", "templateCode", "templateName",
    "templateVersion", "templateVersionDate", "timeTotal", "traceId", "traceParentId",
    "uploadToDocRepository", "timeDocCreator", "identifier", "timeCalculation", "timeGC"}

  /** One more than the largest 128-bit value: the range of a `uuid4()`. */
  const UuidLimit: nat := 0x1_0000_0000_0000_0000_0000_0000_0000_0000

  /** The value of a `uuid4()`: a 128-bit number. */
  type Uuid = u: nat | u < UuidLimit

  /** `uuid.hex`: 32 lower-case hex digits. */
  function UuidHex(u: Uuid): (h: string)
    ensures |h| == 32 && IsHexText(h)
  {
    PowSplit(16, 16, 16);
    PowSplit(16, 8, 8);
    PowSplit(16, 4, 4);
    assert Pow(16, 4) == 65536;
    FormatExactWidth(u, 16, 32);
    Hex(u, 32)
  }

  /** The hex digits of a 36-character UUID text, hyphen positions skipped. */
  function UuidDigits(s: string): string
    requires |s| == 36
  {
    s[..8] + s[9..13] + s[14..18] + s[19..23] + s[24..]
  }

  /** The 8-4-4-4-12 layout: hyphens at 8, 13, 18 and 23, lower-case hex digits everywhere else. */
  predicate IsUuidText(s: string)
  {
    |s| == 36 && s[8] == '-' && s[13] == '-' && s[18] == '-' && s[23] == '-' && IsHexText(UuidDigits(s))
  }

  /** `str(uuid)`: the hex digits grouped 8-4-4-4-12; dropping the hyphens gives `uuid.hex` back. */
  function UuidText(u: Uuid): (s: string)
    ensures IsUuidText(s) && UuidDigits(s) == UuidHex(u)
  {
    var h := UuidHex(u);
    var s := h[..8] + "-" + h[8..12] + "-" + h[12..16] + "-" + h[16..20] + "-" + h[20..];
    assert s[..8] == h[..8] && s[9..13] == h[8..12] && s[14..18] == h[12..16];
    assert s[19..23] == h[16..20] && s[24..] == h[20..];
    assert h == h[..8] + h[8..12] + h[12..16] + h[16..20] + h[20..];
    s
  }

  predicate IsHexText(s: string)
  {
    forall i :: 0 <= i < |s| ==> IsDigit(s[i], 16)
  }

  /** The largest day offset drawn for the template dates. */
  const MaxBackDays: nat := 30

  /** `random.randint(1, 30)`: how many days before the record the template dates lie. */
  type DayOffset = k: nat | 1 <= k <= MaxBackDays witness 1

  /** The random choices one `generate_fake_data` call makes. */
  datatype DataDraws = DataDraws(
    timeTotal: int, docCreator: int, calculation: int, gc: int, templateCode: string, templateName: string,
    apiType: string, authorizationMode: string, backendGui: bool, client: string, contentClient: string,
    dataClassification: string, documentContentLength: int, documentDefinition: string, documentUuid: Uuid,
    externalSource: string, versionMajor: nat, versionMinor: nat, locale: string, logType: string,
    mediaType: string, serialUuid: Uuid, sourceAction: string, sourceCategory: string,
    authorizationDays: DayOffset, templateVersion: int, versionDays: DayOffset, traceUuid: Uuid,
    traceParentUuid: Uuid, uploadToDocRepository: bool, identifier: string)

  /** The code and the name at one index drawn over `TEMPLATE_CODES`. */
  predicate TemplatePair(profile: Profile, code: string, name: string)
  {
    exists i :: 0 <= i < |profile.templateCodes| && i < |profile.templateNames|
      && code == profile.templateCodes[i] && name == profile.templateNames[i]
  }

  /**
   * The draws lie where `random.randint` and `random.choice` put them; the
   * `int(time_total * random.uniform(lo, hi))` splits are taken in `[lo·total, hi·total]`
   * rounded down.
   */
  predicate DataDrawsOk(profile: Profile, d: DataDraws)
  {
    && 200 <= d.timeTotal <= 5000
    && d.timeTotal * 70 / 100 <= d.docCreator <= d.timeTotal * 95 / 100
    && d.timeTotal * 2 / 100 <= d.calculation <= d.timeTotal * 10 / 100
    && d.timeTotal * 1 / 100 <= d.gc <= d.timeTotal * 5 / 100
    && TemplatePair(profile, d.templateCode, d.templateName)
    && d.apiType in ApiTypes && d.authorizationMode in AuthorizationModes
    && d.client in profile.clients && d.contentClient in profile.clients
    && d.dataClassification in DataClassifications
    && 10000 <= d.documentContentLength <= 500000
    && d.documentDefinition in profile.documentDefinitions
    && d.externalSource in ExternalSources
    && 1 <= d.versionMajor <= 5 && 1000 <= d.versionMinor <= 4000
    && d.locale in profile.locales && d.logType in profile.logTypes && d.mediaType in MediaTypes
    && d.sourceAction in SourceActions && d.sourceCategory in SourceCategories
    && 1 <= d.templateVersion <= 50
    && d.identifier in profile.identifiers
  }

  /**
   * `t` lies at least `MaxBackDays` days after 0001-01-01, so both back-dated template
   * dates exist (before that Python raises `OverflowError`).
   */
  predicate Datable(t: Instant)
  {
    MaxBackDays * MicrosPerDay <= t
  }

  /**
   * `(timestamp - timedelta(days=k)).strftime("%Y-%m-%dT%H:%M:%S.0000000Z")`, written as
   * the clock time of `t` on the date `k` days earlier (`DaysBeforeShift` proves the two equal).
   */
  function DaysBefore(t: Instant, k: nat): string
    requires k * MicrosPerDay <= t
  {
    FieldsDaysEarlier(t, k);
    var f := Fields(t);
    DateTimeText(DateTime(CivilOfDay(DayIndex(t) - k), f.hour, f.minute, f.second, f.micro)) + ".0000000Z"
  }

  /** The date-shift form is the `strftime` of `t` less `k` whole days. */
  lemma DaysBeforeShift(t: Instant, k: nat)
    requires k * MicrosPerDay <= t
    ensures DaysBefore(t, k) == IsoSevenZeros(t - k * MicrosPerDay)
  {
    FieldsDaysEarlier(t, k);
  }

  /** The `data` object of a record, one field per key. */
  datatype Payload = Payload(
    apiType: string, authorizationMode: string, backendGui: bool, client: string, contentClient: string,
    dataClassification: string, documentContentLength: int, documentDefinition: string, documentName: string,
    externalSource: string, generationEngine: string, infondsVersion: string, locale: string, logType: string,
    mediaType: string, pageConfigurationCode: string, serialNumber: string, sourceAction: string,
    sourceCategory: string, templateAuthorizationDate: string, templateCode: string, templateName: string,
    templateVersion: int, templateVersionDate: string, timeTotal: int, traceId: string, traceParentId: string,
    uploadToDocRepository: bool, timeDocCreator: int, identifier: string, timeCalculation: int, timeGC: int)

  /** `f"4.{major}.{minor}"`. */
  function VersionText(major: nat, minor: nat): string
  {
    "4." + Dec(major) + "." + Dec(minor)
  }

  /** `f"document-{uuid4().hex[:8]}.pdf"`. */
  function DocumentName(u: Uuid): string
  {
    "document-" + UuidHex(u)[..8] + ".pdf"
  }

  /** `generate_fake_data(timestamp)`: the fully populated `data` object. */
  function FakeData(t: Instant, d: DataDraws): Payload
    requires Datable(t)
  {
    Payload(
      apiType := d.apiType,
      authorizationMode := d.authorizationMode,
      backendGui := d.backendGui,
      client := d.client,
      contentClient := d.contentClient,
      dataClassification := d.dataClassification,
      documentContentLength := d.documentContentLength,
      documentDefinition := d.documentDefinition,
      documentName := DocumentName(d.documentUuid),
      externalSource := d.externalSource,
      generationEngine := "docCreator",
      infondsVersion := VersionText(d.versionMajor, d.versionMinor),
      locale := d.locale,
      logType := d.logType,
      mediaType := d.mediaType,
      pageConfigurationCode := "contoso",
      serialNumber := UuidText(d.serialUuid),
      sourceAction := d.sourceAction,
      sourceCategory := d.sourceCategory,
      templateAuthorizationDate := DaysBefore(t, d.authorizationDays),
      templateCode := d.templateCode,
      templateName := d.templateName,
      templateVersion := d.templateVersion,
      templateVersionDate := DaysBefore(t, d.versionDays),
      timeTotal := d.timeTotal,
      traceId := UuidHex(d.traceUuid),
      traceParentId := UuidHex(d.traceParentUuid)[..16],
      uploadToDocRepository := d.uploadToDocRepository,
      timeDocCreator := d.docCreator,
      identifier := d.identifier,
      timeCalculation := d.calculation,
      timeGC := d.gc)
  }

  /** The text is a whole-second date 1 to 30 days before `t`. */
  ghost predicate BackDated(s: string, t: Instant)
  {
    exists k: nat :: 1 <= k <= MaxBackDays && k * MicrosPerDay <= t && s == IsoSevenZeros(t - k * MicrosPerDay)
  }

  /** Each chosen field is from its list, the constant fields hold their constants. */
  ghost predicate PayloadChoicesOk(profile: Profile, p: Payload)
  {
    && p.apiType in ApiTypes && p.authorizationMode in AuthorizationModes
    && p.client in profile.clients && p.contentClient in profile.clients
    && p.dataClassification in DataClassifications
    && p.documentDefinition in profile.documentDefinitions
    && p.externalSource in ExternalSources
    && p.generationEngine == "docCreator" && p.pageConfigurationCode == "contoso"
    && p.locale in profile.locales && p.logType in profile.logTypes && p.mediaType in MediaTypes
    && p.sourceAction in SourceActions && p.sourceCategory in SourceCategories
    && p.identifier in profile.identifiers
    && TemplatePair(profile, p.templateCode, p.templateName)
  }

  /** The generated identifiers have their fixed shapes. */
  ghost predicate PayloadTextsOk(p: Payload)
  {
    && |p.documentName| == 21 && p.documentName[..9] == "document-" && IsHexText(p.documentName[9..17])
    && p.documentName[17..] == ".pdf"
    && (exists major: nat, minor: nat :: 1 <= major <= 5 && 1000 <= minor <= 4000
          && p.infondsVersion == VersionText(major, minor))
    && IsUuidText(p.serialNumber)
    && |p.traceId| == 32 && IsHexText(p.traceId)
    && |p.traceParentId| == 16 && IsHexText(p.traceParentId)
  }

  /** The numbers lie in the ranges drawn from, the time splits relative to `timeTotal`. */
  ghost predicate PayloadNumbersOk(p: Payload)
  {
    && 10000 <= p.documentContentLength <= 500000
    && 1 <= p.templateVersion <= 50
    && 200 <= p.timeTotal <= 5000
    && p.timeTotal * 70 / 100 <= p.timeDocCreator <= p.timeTotal * 95 / 100
    && p.timeTotal * 2 / 100 <= p.timeCalculation <= p.timeTotal * 10 / 100
    && p.timeTotal / 100 <= p.timeGC <= p.timeTotal * 5 / 100
  }

  /** Both template dates are 1 to 30 days before the record's time. */
  ghost predicate PayloadDatesOk(p: Payload, t: Instant)
  {
    BackDated(p.templateAuthorizationDate, t) && BackDated(p.templateVersionDate, t)
  }

  /** What every `data` object satisfies, whatever was drawn. */
  ghost predicate WellFormedPayload(profile: Profile, p: Payload, t: Instant)
  {
    PayloadChoicesOk(profile, p) && PayloadTextsOk(p) && PayloadNumbersOk(p) && PayloadDatesOk(p, t)
  }

  lemma FakeDataChoices(profile: Profile, t: Instant, d: DataDraws)
    requires DataDrawsOk(profile, d) && Datable(t)
    ensures PayloadChoicesOk(profile, FakeData(t, d))
  {
  }

  lemma FakeDataTexts(t: Instant, d: DataDraws)
    requires 1 <= d.versionMajor <= 5 && 1000 <= d.versionMinor <= 4000 && Datable(t)
    ensures PayloadTextsOk(FakeData(t, d))
  {
    var p := FakeData(t, d);
    var documentHex := UuidHex(d.documentUuid);
    assert p.documentName == "document-" + documentHex[..8] + ".pdf";
    assert p.documentName[9..17] == documentHex[..8];
    assert p.infondsVersion == VersionText(d.versionMajor, d.versionMinor);
  }

  /** A template date drawn `k` days back is back-dated in the documented window. */
  lemma DaysBeforeBackDated(t: Instant, k: DayOffset)
    requires Datable(t)
    ensures BackDated(DaysBefore(t, k), t)
  {
    DaysBeforeShift(t, k);
  }

  lemma FakeDataDates(t: Instant, d: DataDraws)
    requires Datable(t)
    ensures PayloadDatesOk(FakeData(t, d), t)
  {
    DaysBeforeBackDated(t, d.authorizationDays);
    DaysBeforeBackDated(t, d.versionDays);
  }

  /** Whatever is drawn, `generate_fake_data` yields a well-formed payload. */
  lemma FakeDataWellFormed(profile: Profile, t: Instant, d: DataDraws)
    requires DataDrawsOk(profile, d) && Datable(t)
    ensures WellFormedPayload(profile, FakeData(t, d), t)
  {
    FakeDataChoices(profile, t, d);
    FakeDataTexts(t, d);
    FakeDataDates(t, d);
  }

  /** The JSON object a payload is written as, keys in the order the script lists them. */
  function PayloadJson(p: Payload): Record
  {
    map[
      "apiType" := Str(p.apiType),
      "authorizationMode" := Str(p.authorizationMode),
      "backendGui" := Bool(p.backendGui),
      "client" := Str(p.client),
      "contentClient" := Str(p.contentClient),
      "dataClassification" := Str(p.dataClassification),
      "documentContentLength" := Int(p.documentContentLength),
      "documentDefinition" := Str(p.documentDefinition),
      "documentName" := Str(p.documentName),
      "externalSource" := Str(p.externalSource),
      "generationEngine" := Str(p.generationEngine),
      "infondsVersion" := Str(p.infondsVersion),
      "locale" := Str(p.locale),
      "logType" := Str(p.logType),
      "mediaType" := Str(p.mediaType),
      "pageConfigurationCode" := Str(p.pageConfigurationCode),
      "serialNumber" := Str(p.serialNumber),
      "sourceAction" := Str(p.sourceAction),
      "sourceCategory" := Str(p.sourceCategory),
      "templateAuthorizationDate" := Str(p.templateAuthorizationDate),
      "templateCode" := Str(p.templateCode),
      "templateName" := Str(p.templateName),
      "templateVersion" := Int(p.templateVersion),
      "templateVersionDate" := Str(p.templateVersionDate),
      "timeTotal" := Int(p.timeTotal),
      "traceId" := Str(p.traceId),
      "traceParentId" := Str(p.traceParentId),
      "uploadToDocRepository" := Bool(p.uploadToDocRepository),
      "timeDocCreator" := Int(p.timeDocCreator),
      "identifier" := Str(p.identifier),
      "timeCalculation" := Int(p.timeCalculation),
      "timeGC" := Int(p.timeGC)
    ]
  }

  /** Every payload key is always present, and no other. */
  lemma PayloadJsonKeys(p: Payload)
    ensures PayloadJson(p).Keys == DataKeys
  {
  }

  /** The random choices one `generate_log_record` call makes besides its `data` object. */
  datatype RecordDraws = RecordDraws(
    namespace: string, pod: string, severity: string, ip1: nat, ip2: nat, ip3: nat,
    hostNumber: nat, vmss: nat, data: DataDraws)

  predicate RecordDrawsOk(profile: Profile, d: RecordDraws)
  {
    && d.namespace in profile.namespaces && d.pod in profile.pods && d.severity in profile.severities
    && 1 <= d.ip1 <= 255 && 1 <= d.ip2 <= 255 && 1 <= d.ip3 <= 255
    && 10000000 <= d.hostNumber <= 99999999 && 1000 <= d.vmss <= 9999
    && DataDrawsOk(profile, d.data)
  }

  /** `f"10.{a}.{b}.{c}"`. */
  function PodIp(a: nat, b: nat, c: nat): string
  {
    "10." + Dec(a) + "." + Dec(b) + "." + Dec(c)
  }

  /** `f"aks-applications-{n}-vmss{m}"`. */
  function HostName(n: nat, m: nat): string
  {
    "aks-applications-" + Dec(n) + "-vmss" + Dec(m)
  }

  /** The record's keys are the template's plus `timestamp` and `data`; unlisted template fields are kept. */
  ghost predicate RecordShapeOk(profile: Profile, r: Record)
  {
    && r.Keys == profile.template.Keys + Overwritten + {"timestamp", "data"}
    && (forall k :: k in profile.template && k !in Overwritten && k != "timestamp" && k != "data"
          ==> k in r && r[k] == profile.template[k])
  }

  /** The overwritten identity fields hold values of their documented shapes. */
  ghost predicate IdentityOk(profile: Profile, r: Record)
  {
    && {"namespace", "pod", "severity", "podIp", "host"} <= r.Keys
    && OneOf(r["namespace"], profile.namespaces)
    && OneOf(r["pod"], profile.pods)
    && OneOf(r["severity"], profile.severities)
    && (exists a: nat, b: nat, c: nat :: 1 <= a <= 255 && 1 <= b <= 255 && 1 <= c <= 255
          && r["podIp"] == Str(PodIp(a, b, c)))
    && (exists n: nat, m: nat :: 10000000 <= n <= 99999999 && 1000 <= m <= 9999
          && r["host"] == Str(HostName(n, m)))
  }

  /** The record carries the timestamp text of `t` and a well-formed payload for `t`. */
  ghost predicate StampOk(profile: Profile, r: Record, t: Instant)
  {
    && "timestamp" in r && "data" in r
    && r["timestamp"] == Str(IsoMicros(t))
    && (exists p :: WellFormedPayload(profile, p, t) && r["data"] == Object(PayloadJson(p)))
  }

  /**
   * What every generated record satisfies: the template's keys plus `timestamp` and
   * `data`; the template copied except for the overwritten identity fields, which hold
   * values of the documented shapes; the timestamp text of `t`; a well-formed payload.
   */
  ghost predicate WellFormedRecord(profile: Profile, r: Record, t: Instant)
  {
    RecordShapeOk(profile, r) && IdentityOk(profile, r) && StampOk(profile, r, t)
  }

  /** The template with the seven fields `generate_log_record` assigns, in its order. */
  function Overwrite(template: Record, stamp: string, namespace: string, pod: string, severity: string,
                     ip: string, host: string, data: Record): Record
  {
    template["timestamp" := Str(stamp)]["namespace" := Str(namespace)]["pod" := Str(pod)]
      ["severity" := Str(severity)]["podIp" := Str(ip)]["host" := Str(host)]["data" := Object(data)]
  }

  lemma OverwriteShape(profile: Profile, stamp: string, namespace: string, pod: string, severity: string,
                       ip: string, host: string, data: Record)
    ensures RecordShapeOk(profile, Overwrite(profile.template, stamp, namespace, pod, severity, ip, host, data))
  {
  }

  lemma OverwriteFields(template: Record, stamp: string, namespace: string, pod: string, severity: string,
                        ip: string, host: string, data: Record)
    ensures var r := Overwrite(template, stamp, namespace, pod, severity, ip, host, data);
      && r["timestamp"] == Str(stamp) && r["namespace"] == Str(namespace) && r["pod"] == Str(pod)
      && r["severity"] == Str(severity) && r["podIp"] == Str(ip) && r["host"] == Str(host)
      && r["data"] == Object(data)
  {
  }

  /** The record `generate_log_record` builds from the template and these draws, as one expression. */
  function DrawnRecord(template: Record, t: Instant, draws: RecordDraws): Record
    requires Datable(t)
  {
    Overwrite(template, IsoMicros(t), draws.namespace, draws.pod, draws.severity,
              PodIp(draws.ip1, draws.ip2, draws.ip3), HostName(draws.hostNumber, draws.vmss),
              PayloadJson(FakeData(t, draws.data)))
  }

  lemma DrawnRecordIdentity(profile: Profile, t: Instant, draws: RecordDraws)
    requires RecordDrawsOk(profile, draws) && Datable(t)
    ensures IdentityOk(profile, DrawnRecord(profile.template, t, draws))
  {
    var r := DrawnRecord(profile.template, t, draws);
    OverwriteFields(profile.template, IsoMicros(t), draws.namespace, draws.pod, draws.severity,
                    PodIp(draws.ip1, draws.ip2, draws.ip3), HostName(draws.hostNumber, draws.vmss),
                    PayloadJson(FakeData(t, draws.data)));
    assert r["podIp"] == Str(PodIp(draws.ip1, draws.ip2, draws.ip3));
    assert r["host"] == Str(HostName(draws.hostNumber, draws.vmss));
  }

  /** Whatever was drawn, the record's `timestamp` is the ISO text of its instant. */
  lemma DrawnRecordTimestamp(template: Record, t: Instant, draws: RecordDraws)
    requires Datable(t)
    ensures var r := DrawnRecord(template, t, draws);
      "timestamp" in r && r["timestamp"] == Str(IsoMicros(t))
  {
    OverwriteFields(template, IsoMicros(t), draws.namespace, draws.pod, draws.severity,
                    PodIp(draws.ip1, draws.ip2, draws.ip3), HostName(draws.hostNumber, draws.vmss),
                    PayloadJson(FakeData(t, draws.data)));
  }

  lemma DrawnRecordStamp(profile: Profile, t: Instant, draws: RecordDraws)
    requires RecordDrawsOk(profile, draws) && Datable(t)
    ensures StampOk(profile, DrawnRecord(profile.template, t, draws), t)
  {
    var r := DrawnRecord(profile.template, t, draws);
    var p := FakeData(t, draws.data);
    OverwriteFields(profile.template, IsoMicros(t), draws.namespace, draws.pod, draws.severity,
                    PodIp(draws.ip1, draws.ip2, draws.ip3), HostName(draws.hostNumber, draws.vmss),
                    PayloadJson(p));
    FakeDataWellFormed(profile, t, draws.data);
    assert r["data"] == Object(PayloadJson(p));
  }

  /** Whatever is drawn, `generate_log_record` yields a well-formed record. */
  lemma DrawnRecordWellFormed(profile: Profile, t: Instant, draws: RecordDraws)
    requires RecordDrawsOk(profile, draws) && Datable(t)
    ensures WellFormedRecord(profile, DrawnRecord(profile.template, t, draws), t)
  {
    OverwriteShape(profile, IsoMicros(t), draws.namespace, draws.pod, draws.severity,
                   PodIp(draws.ip1, draws.ip2, draws.ip3), HostName(draws.hostNumber, draws.vmss),
                   PayloadJson(FakeData(t, draws.data)));
    DrawnRecordIdentity(profile, t, draws);
    DrawnRecordStamp(profile, t, draws);
  }

  /** `generate_log_record(timestamp)`: copy the template, then overwrite field by field. */
  method GenerateLogRecord(template: Record, t: Instant, draws: RecordDraws) returns (record: Record)
    requires Datable(t)
    ensures record == DrawnRecord(template, t, draws)
  {
    record := template;
    record := record["timestamp" := Str(IsoMicros(t))];
    record := record["namespace" := Str(draws.namespace)];
    record := record["pod" := Str(draws.pod)];
    record := record["severity" := Str(draws.severity)];
    record := record["podIp" := Str(PodIp(draws.ip1, draws.ip2, draws.ip3))];
    record := record["host" := Str(HostName(draws.hostNumber, draws.vmss))];
    record := record["data" := Object(PayloadJson(FakeData(t, draws.data)))];
  }
}
