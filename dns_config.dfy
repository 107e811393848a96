/** The validator of the network DNS configuration resource (NetworkDNSConfig and
    its record items). Every sub-check runs, and the failures are gathered, in
    order, into one composite error. Go's nil slice and empty slice both appear
    here as `[]`: the validator treats them alike. */
module DnsConfig {
  import opened Wrappers
  import opened GoTypes

  // ---- Validation errors ----

  /** One step of the name of the property an error is about: "records.0.domain"
      is [Field("records"), Index(0), Field("domain")]. */
  datatype Segment = Field(name: string) | Index(i: nat)

  type Path = seq<Segment>

  datatype ValidationError =
    | Required(path: Path)                   // validate.Required / RequiredString
    | TooShort(path: Path, minLength: int)   // validate.MinLength
    | Composite(errors: seq<ValidationError>) // errors.CompositeValidationError

  /** The error with `prefix` put in front of every property name in it
      (errors.Validation.ValidateName and its CompositeError counterpart). */
  function Prefixed(prefix: Path, e: ValidationError): ValidationError
    decreases e
  {
    match e
    case Required(p) => Required(prefix + p)
    case TooShort(p, n) => TooShort(prefix + p, n)
    case Composite(es) => Composite(seq(|es|, i requires 0 <= i < |es| => Prefixed(prefix, es[i])))
  }

  // ---- The resource ----

  /** NetworkDNSConfigRecordsItems0: one DNS record. */
  datatype RecordItem = RecordItem(
    aRecord: seq<string>,
    aaaaRecord: seq<string>,
    cnameRecord: seq<string>,
    domain: string)

  /** NetworkDNSConfig; a nil record pointer is `None`. */
  datatype NetworkDnsConfig = NetworkDnsConfig(
    enableCaching: Option<bool>,
    localTtl: Option<int32>,
    records: seq<Option<RecordItem>>)

  // ---- Gathering sub-check results ----

  /** The index of the first element satisfying `p`, if any. */
  function FirstIndexWhere<T>(s: seq<T>, p: T -> bool): (r: Option<nat>)
    ensures r.Some? ==> r.value < |s| && p(s[r.value]) && forall j :: 0 <= j < r.value ==> !p(s[j])
    ensures r.None? ==> forall j :: 0 <= j < |s| ==> !p(s[j])
  {
    if |s| == 0 then None
    else if p(s[0]) then Some(0)
    else
      match FirstIndexWhere(s[1..], p)
      case None => None
      case Some(k) => Some(k + 1)
  }

  /** The errors of the failed checks, in the order the checks ran. */
  function Failures(checks: seq<Outcome<ValidationError>>): (errs: seq<ValidationError>)
    ensures |errs| <= |checks|
    ensures |errs| == 0 <==> forall i :: 0 <= i < |checks| ==> checks[i].Pass?
  {
    if |checks| == 0 then []
    else
      var last := checks[|checks| - 1];
      Failures(checks[..|checks| - 1]) + (if last.Fail? then [last.error] else [])
  }

  /** The outcome of a Validate method: a composite of the failures, if any. */
  function Gathered(checks: seq<Outcome<ValidationError>>): Outcome<ValidationError> {
    var errs := Failures(checks);
    if |errs| > 0 then Fail(Composite(errs)) else Pass
  }

  lemma FailuresSnoc(checks: seq<Outcome<ValidationError>>, c: Outcome<ValidationError>)
    ensures Failures(checks + [c]) == Failures(checks) + (if c.Fail? then [c.error] else [])
  {
    assert (checks + [c])[..|checks|] == checks;
  }

  /** Gathering fails exactly when some sub-check failed, and then carries the
      errors of all failed sub-checks, in order. */
  lemma GatheredFailsIff(checks: seq<Outcome<ValidationError>>)
    ensures Gathered(checks).Fail? <==> exists i :: 0 <= i < |checks| && checks[i].Fail?
    ensures Gathered(checks).Fail? ==> Gathered(checks).error == Composite(Failures(checks))
  {
  }

  /** The gathered errors are exactly the errors of the failed sub-checks. */
  lemma {:induction false} FailuresAreFailedChecks(checks: seq<Outcome<ValidationError>>, e: ValidationError)
    ensures e in Failures(checks) <==> exists i :: 0 <= i < |checks| && checks[i] == Fail(e)
  {
    if |checks| > 0 {
      var n := |checks| - 1;
      var init := checks[..n];
      FailuresAreFailedChecks(init, e);
      if e in Failures(checks) {
        if e in Failures(init) {
          var i :| 0 <= i < |init| && init[i] == Fail(e);
          assert checks[i] == Fail(e);
        } else {
          assert checks[n] == Fail(e);
        }
      }
      if exists i :: 0 <= i < |checks| && checks[i] == Fail(e) {
        var i :| 0 <= i < |checks| && checks[i] == Fail(e);
        if i < n {
          assert init[i] == Fail(e);
        }
      }
    }
  }

  // ---- Straight-line checks ----

  function EnableCachingCheck(enableCaching: Option<bool>): Outcome<ValidationError> {
    if enableCaching.None? then Fail(Required([Field("enable_caching")])) else Pass
  }

  function LocalTtlCheck(localTtl: Option<int32>): Outcome<ValidationError> {
    if localTtl.None? then Fail(Required([Field("local_ttl")])) else Pass
  }

  /** validate.RequiredString, then validate.MinLength(1); the second can only
      fail on what the first already rejects. */
  function DomainCheck(domain: string): Outcome<ValidationError> {
    if domain == "" then Fail(Required([Field("domain")]))
    else if |domain| < 1 then Fail(TooShort([Field("domain")], 1))
    else Pass
  }

  // ---- Record lists (validateARecord, validateAaaaRecord, validateCnameRecord) ----

  /** validate.MinLength(entry, 1) fails. */
  predicate IsEmptyEntry(entry: string) {
    |entry| < 1
  }

  /** The outcome of checking every entry of list `field`: the first empty entry, if any. */
  function StringListCheck(field: string, entries: seq<string>): Outcome<ValidationError> {
    match FirstIndexWhere(entries, IsEmptyEntry)
    case None => Pass
    case Some(i) => Fail(TooShort([Field(field), Index(i)], 1))
  }

  /** The loop shared by the three record-list validators, for list `field`. */
  method ValidateStringList(field: string, entries: seq<string>) returns (r: Outcome<ValidationError>)
    ensures r == StringListCheck(field, entries)
    ensures r.Fail? <==> exists j :: 0 <= j < |entries| && entries[j] == ""
    ensures r.Fail? ==>
      exists i :: 0 <= i < |entries| && entries[i] == "" && (forall j :: 0 <= j < i ==> entries[j] != "")
        && r.error == TooShort([Field(field), Index(i)], 1)
  {
    if |entries| == 0 {  // not required
      return Pass;
    }
    var i := 0;
    while i < |entries|
      invariant 0 <= i <= |entries|
      invariant forall j :: 0 <= j < i ==> !IsEmptyEntry(entries[j])
    {
      if |entries[i]| < 1 {
        return Fail(TooShort([Field(field), Index(i)], 1));
      }
      i := i + 1;
    }
    return Pass;
  }

  /** A list check fails exactly when some entry is empty, and names the first one. */
  lemma StringListCheckIff(field: string, entries: seq<string>)
    ensures StringListCheck(field, entries).Pass? <==> forall j :: 0 <= j < |entries| ==> entries[j] != ""
    ensures StringListCheck(field, entries).Fail? ==>
      exists i :: 0 <= i < |entries| && entries[i] == "" && (forall j :: 0 <= j < i ==> entries[j] != "")
        && StringListCheck(field, entries).error == TooShort([Field(field), Index(i)], 1)
  {
    match FirstIndexWhere(entries, IsEmptyEntry)
    case None =>
    case Some(i) =>
      assert entries[i] == "";
  }

  // ---- Record items ----

  /** The sub-checks of a record, in the order Validate runs them. */
  function ItemChecks(m: RecordItem): seq<Outcome<ValidationError>> {
    [ StringListCheck("a_record", m.aRecord),
      StringListCheck("aaaa_record", m.aaaaRecord),
      StringListCheck("cname_record", m.cnameRecord),
      DomainCheck(m.domain) ]
  }

  function ItemOutcome(m: RecordItem): Outcome<ValidationError> {
    Gathered(ItemChecks(m))
  }

  /** The record is valid: a non-empty domain and no empty entry in any list. */
  predicate ItemValid(m: RecordItem) {
    && m.domain != ""
    && (forall j :: 0 <= j < |m.aRecord| ==> m.aRecord[j] != "")
    && (forall j :: 0 <= j < |m.aaaaRecord| ==> m.aaaaRecord[j] != "")
    && (forall j :: 0 <= j < |m.cnameRecord| ==> m.cnameRecord[j] != "")
  }

  /** A record passes exactly when it is valid: every sub-check of it is run and
      any one failing fails the record. */
  lemma ItemOutcomeIff(m: RecordItem)
    ensures ItemOutcome(m).Pass? <==> ItemValid(m)
  {
    var checks := ItemChecks(m);
    GatheredFailsIff(checks);
    assert ItemOutcome(m).Pass? <==> checks[0].Pass? && checks[1].Pass? && checks[2].Pass? && checks[3].Pass?;
    StringListCheckIff("a_record", m.aRecord);
    StringListCheckIff("aaaa_record", m.aaaaRecord);
    StringListCheckIff("cname_record", m.cnameRecord);
  }

  /** Appends the error of a failed check to `res`, as each Validate does. */
  function AppendFailure(res: seq<ValidationError>, check: Outcome<ValidationError>): seq<ValidationError> {
    if check.Fail? then res + [check.error] else res
  }

  method ValidateItem(m: RecordItem) returns (r: Outcome<ValidationError>)
    ensures r == ItemOutcome(m)
    ensures r.Pass? <==> ItemValid(m)
  {
    var res: seq<ValidationError> := [];
    ghost var ran: seq<Outcome<ValidationError>> := [];
    var a := ValidateStringList("a_record", m.aRecord);
    res := AppendFailure(res, a);
    FailuresSnoc(ran, a);
    ran := ran + [a];
    var aaaa := ValidateStringList("aaaa_record", m.aaaaRecord);
    res := AppendFailure(res, aaaa);
    FailuresSnoc(ran, aaaa);
    ran := ran + [aaaa];
    var cname := ValidateStringList("cname_record", m.cnameRecord);
    res := AppendFailure(res, cname);
    FailuresSnoc(ran, cname);
    ran := ran + [cname];
    var domain := DomainCheck(m.domain);
    res := AppendFailure(res, domain);
    FailuresSnoc(ran, domain);
    ran := ran + [domain];
    assert ran == ItemChecks(m) && res == Failures(ran);
    ItemOutcomeIff(m);
    if |res| > 0 {
      return Fail(Composite(res));
    }
    return Pass;
  }

  // ---- The record list (validateRecords) ----

  /** A record entry that fails validation; nil entries are skipped. */
  predicate InvalidEntry(entry: Option<RecordItem>) {
    entry.Some? && ItemOutcome(entry.value).Fail?
  }

  /** validateRecords as the source has it: the first invalid record's error is
      returned unchanged, because it is a composite error and the renaming only
      applies to a single validation error. */
  function RecordsCheckAsWritten(records: seq<Option<RecordItem>>): (r: Outcome<ValidationError>)
    ensures r.Fail? <==> exists i :: 0 <= i < |records| && InvalidEntry(records[i])
    ensures r.Fail? ==>
      exists i :: 0 <= i < |records| && InvalidEntry(records[i])
        && (forall j :: 0 <= j < i ==> !InvalidEntry(records[j]))
        && r == ItemOutcome(records[i].value)
  {
    match FirstIndexWhere(records, InvalidEntry)
    case None => Pass
    case Some(i) => ItemOutcome(records[i].value)
  }

  /** validateRecords as intended: the first invalid record's error, named
      under "records.<i>". */
  function RecordsCheck(records: seq<Option<RecordItem>>): (r: Outcome<ValidationError>)
    ensures r.Fail? <==> exists i :: 0 <= i < |records| && InvalidEntry(records[i])
  {
    match FirstIndexWhere(records, InvalidEntry)
    case None => Pass
    case Some(i) => Fail(Prefixed([Field("records"), Index(i)], ItemOutcome(records[i].value).error))
  }

  method ValidateRecords(records: seq<Option<RecordItem>>) returns (r: Outcome<ValidationError>)
    ensures r == RecordsCheck(records)
    ensures r.Fail? <==> exists i :: 0 <= i < |records| && InvalidEntry(records[i])
  {
    if |records| == 0 {  // not required
      return Pass;
    }
    var i := 0;
    while i < |records|
      invariant 0 <= i <= |records|
      invariant forall j :: 0 <= j < i ==> !InvalidEntry(records[j])
    {
      if records[i].None? {  // not required
        i := i + 1;
        continue;
      }
      var e := ValidateItem(records[i].value);
      if e.Fail? {
        return Fail(Prefixed([Field("records"), Index(i)], e.error));
      }
      i := i + 1;
    }
    return Pass;
  }

  // ---- The whole resource ----

  /** The sub-checks of the config, in the order Validate runs them. */
  function ConfigChecks(m: NetworkDnsConfig): seq<Outcome<ValidationError>> {
    [ EnableCachingCheck(m.enableCaching),
      LocalTtlCheck(m.localTtl),
      RecordsCheck(m.records) ]
  }

  function ConfigOutcome(m: NetworkDnsConfig): Outcome<ValidationError> {
    Gathered(ConfigChecks(m))
  }

  /** The config is valid: both required fields set and every non-nil record valid. */
  predicate ConfigValid(m: NetworkDnsConfig) {
    && m.enableCaching.Some?
    && m.localTtl.Some?
    && forall i :: 0 <= i < |m.records| && m.records[i].Some? ==> ItemValid(m.records[i].value)
  }

  /** The config passes exactly when it is valid. */
  lemma ConfigOutcomeIff(m: NetworkDnsConfig)
    ensures ConfigOutcome(m).Pass? <==> ConfigValid(m)
  {
    var checks := ConfigChecks(m);
    GatheredFailsIff(checks);
    assert ConfigOutcome(m).Pass? <==> checks[0].Pass? && checks[1].Pass? && checks[2].Pass?;
    var records := m.records;
    match FirstIndexWhere(records, InvalidEntry)
    case None =>
      forall i | 0 <= i < |records| && records[i].Some? ensures ItemValid(records[i].value) {
        ItemOutcomeIff(records[i].value);
      }
    case Some(i) =>
      ItemOutcomeIff(records[i].value);
  }

  method Validate(m: NetworkDnsConfig) returns (r: Outcome<ValidationError>)
    ensures r == ConfigOutcome(m)
    ensures r.Pass? <==> ConfigValid(m)
  {
    var res: seq<ValidationError> := [];
    ghost var ran: seq<Outcome<ValidationError>> := [];
    var enableCaching := EnableCachingCheck(m.enableCaching);
    res := AppendFailure(res, enableCaching);
    FailuresSnoc(ran, enableCaching);
    ran := ran + [enableCaching];
    var localTtl := LocalTtlCheck(m.localTtl);
    res := AppendFailure(res, localTtl);
    FailuresSnoc(ran, localTtl);
    ran := ran + [localTtl];
    var records := ValidateRecords(m.records);
    res := AppendFailure(res, records);
    FailuresSnoc(ran, records);
    ran := ran + [records];
    assert ran == ConfigChecks(m) && res == Failures(ran);
    ConfigOutcomeIff(m);
    if |res| > 0 {
      return Fail(Composite(res));
    }
    return Pass;
  }

  // ---- Properties of the validator ----

  /** A missing enable_caching fails the config with a Required error for it. */
  lemma MissingEnableCachingFails(m: NetworkDnsConfig)
    requires m.enableCaching.None?
    ensures ConfigOutcome(m).Fail?
    ensures Required([Field("enable_caching")]) in ConfigOutcome(m).error.errors
  {
    GatheredFailsIff(ConfigChecks(m));
    FailuresAreFailedChecks(ConfigChecks(m), Required([Field("enable_caching")]));
    assert ConfigChecks(m)[0] == Fail(Required([Field("enable_caching")]));
  }

  /** A missing local_ttl fails the config with a Required error for it. */
  lemma MissingLocalTtlFails(m: NetworkDnsConfig)
    requires m.localTtl.None?
    ensures ConfigOutcome(m).Fail?
    ensures Required([Field("local_ttl")]) in ConfigOutcome(m).error.errors
  {
    GatheredFailsIff(ConfigChecks(m));
    FailuresAreFailedChecks(ConfigChecks(m), Required([Field("local_ttl")]));
    assert ConfigChecks(m)[1] == Fail(Required([Field("local_ttl")]));
  }

  /** An empty record list, or one holding only nil entries, passes. */
  lemma NilRecordsPass(records: seq<Option<RecordItem>>)
    requires forall i :: 0 <= i < |records| ==> records[i].None?
    ensures RecordsCheck(records) == Pass
  {
  }

  /** A record with an empty domain fails, with a Required error for the domain. */
  lemma EmptyDomainFails(m: RecordItem)
    requires m.domain == ""
    ensures ItemOutcome(m).Fail?
    ensures Required([Field("domain")]) in ItemOutcome(m).error.errors
  {
    GatheredFailsIff(ItemChecks(m));
    FailuresAreFailedChecks(ItemChecks(m), Required([Field("domain")]));
    assert ItemChecks(m)[3] == Fail(Required([Field("domain")]));
  }

  /** The record list fails at its first invalid record and reports that record's
      error under "records.<i>". */
  lemma RecordsCheckReportsFirstInvalid(records: seq<Option<RecordItem>>)
    ensures RecordsCheck(records).Fail? ==>
      exists i :: 0 <= i < |records| && records[i].Some? && !ItemValid(records[i].value)
        && (forall j :: 0 <= j < i && records[j].Some? ==> ItemValid(records[j].value))
        && ItemOutcome(records[i].value).Fail?
        && RecordsCheck(records).error == Prefixed([Field("records"), Index(i)], ItemOutcome(records[i].value).error)
  {
    match FirstIndexWhere(records, InvalidEntry)
    case None =>
    case Some(i) =>
      ItemOutcomeIff(records[i].value);
      forall j | 0 <= j < i && records[j].Some? ensures ItemValid(records[j].value) {
        ItemOutcomeIff(records[j].value);
      }
  }

  /** As written, a failing record's error loses its "records.<i>" name: the
      config whose only record has an empty domain reports the bare domain path. */
  lemma AsWrittenLosesRecordIndex()
    ensures
      var records := [Some(RecordItem([], [], [], ""))];
      && RecordsCheckAsWritten(records) == Fail(Composite([Required([Field("domain")])]))
      && RecordsCheck(records) == Fail(Composite([Required([Field("records"), Index(0), Field("domain")])]))
  {
    var item := RecordItem([], [], [], "");
    var records := [Some(item)];
    var checks := ItemChecks(item);
    assert checks == [Pass, Pass, Pass, Fail(Required([Field("domain")]))];
    assert checks[..3] == [Pass, Pass, Pass];
    assert checks[..3][..2] == [Pass, Pass];
    assert checks[..3][..2][..1] == [Pass];
    assert Failures(checks) == [Required([Field("domain")])];
    assert InvalidEntry(records[0]);
    assert FirstIndexWhere(records, InvalidEntry) == Some(0);
    var prefix := [Field("records"), Index(0)];
    assert prefix + [Field("domain")] == [Field("records"), Index(0), Field("domain")];
    assert Prefixed(prefix, Required([Field("domain")])) == Required([Field("records"), Index(0), Field("domain")]);
    assert Prefixed(prefix, Composite([Required([Field("domain")])])) ==
      Composite([Required([Field("records"), Index(0), Field("domain")])]);
  }

  /** The as-written and the intended record check agree on pass or fail, and
      differ only in the name under which the error is reported. */
  lemma AsWrittenDiffersOnlyInName(records: seq<Option<RecordItem>>)
    ensures RecordsCheckAsWritten(records).Fail? <==> RecordsCheck(records).Fail?
    ensures RecordsCheck(records).Fail? ==>
      exists i :: 0 <= i < |records| &&
        RecordsCheck(records).error == Prefixed([Field("records"), Index(i)], RecordsCheckAsWritten(records).error)
  {
  }
}
