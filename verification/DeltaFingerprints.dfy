/** Delta fingerprints as digests of canonical JSON, and what an envelope of them approves. */
module DeltaFingerprints {
  import opened BenchmarkContracts
  import opened CanonicalJson
  import opened Comparator
  import opened GovernanceContracts
  import opened OperatingSummaries
  import opened OrderStatistics
  import opened Ordering
  import opened Results
  import opened RunEvidence
  import opened Sequences
  import opened VerdictTheorems

  /** The text Python prints for a float. */
  type FloatText = real -> string

  function RouteJson(r: RouteIdentity): Json {
    JObj([ Field("task_kind", JStr(r.taskKind)),
           Field("adapter_id", JStr(r.adapterId)),
           Field("model_id", JStr(r.modelId)),
           Field("profile_id", OptionalText(r.profileId)),
           Field("lane_trial_count", JInt(r.laneTrialCount)),
           Field("invoked_trial_count", JInt(r.invokedTrialCount)) ])
  }

  /** Whole medians print as integers, floats with their point. */
  function MedianJson(number: FloatText, m: Option<MedianValue>): Json {
    match m
    case None => JNull
    case Some(WholeMedian(n)) => JInt(n)
    case Some(FloatMedian(x)) => JStr(number(x))
  }

  function ValueJson(number: FloatText, v: Value): Json {
    match v
    case Whole(n) => JInt(n)
    case MaybeWhole(n) => OptionalInt(n)
    case MaybeMedian(m) => MedianJson(number, m)
    case Pairs(pairs) => JArr(StoredPairs(pairs))
    case Wholes(values) => JArr(StoredInts(values))
    case Texts(texts) => TextArray(texts)
    case Routes(routes) => JArr(Map(RouteJson, routes))
  }

  function ChangeFields(number: FloatText, domain: string, path: string, before: Value, after: Value): seq<Field> {
    [ Field("domain", JStr(domain)),
      Field("path", JStr(path)),
      Field("reference_value", ValueJson(number, before)),
      Field("candidate_value", ValueJson(number, after)) ]
  }

  /** `delta_fingerprint` */
  function DigestFingerprint(sha256: string -> string, number: FloatText): Fingerprint {
    (domain: string, path: string, before: Value, after: Value) =>
      Digest(sha256, JObj(ChangeFields(number, domain, path, before, after)))
  }

  // ---------------------------------------------------------------- equal JSON

  ghost predicate SameKeys(f: seq<Field>, g: seq<Field>) {
    |f| == |g| && forall i | 0 <= i < |f| :: f[i].key == g[i].key
  }

  ghost predicate DistinctKeys(f: seq<Field>) { forall i, j | 0 <= i < j < |f| :: f[i].key != f[j].key }

  /** Two records with the same keys are equal value by value. */
  lemma {:induction false} RecordValues(f: seq<Field>, g: seq<Field>, i: nat)
    requires SameKeys(f, g) && DistinctKeys(g) && i < |f| && SameValue(JObj(f), JObj(g))
    ensures SameValue(f[i].value, g[i].value)
  {
    var j :| 0 <= j < |g| && f[i].key == g[j].key && SameValue(f[i].value, g[j].value);
    assert g[i].key == g[j].key;
  }

  /** No object inside. */
  predicate NoObject(v: Json) {
    match v
    case JObj(_) => false
    case JArr(items) => forall i | 0 <= i < |items| :: NoObject(items[i])
    case _ => true
  }

  lemma {:induction false} SamePlain(a: Json, b: Json)
    requires SameValue(a, b) && NoObject(a)
    ensures a == b
  {
    if a.JArr? {
      forall i | 0 <= i < |a.items| ensures a.items[i] == b.items[i] { SamePlain(a.items[i], b.items[i]); }
      assert a.items == b.items;
    }
  }

  lemma {:induction false} PlainUnique(a: Json)
    requires NoObject(a)
    ensures UniqueKeys(a)
  {
    if a.JArr? {
      forall i | 0 <= i < |a.items| ensures UniqueKeys(a.items[i]) { PlainUnique(a.items[i]); }
    }
  }

  lemma {:induction false} RouteKeysDistinct(r: RouteIdentity)
    ensures DistinctKeys(RouteJson(r).fields)
  {}

  lemma {:induction false} RouteJsonUnique(r: RouteIdentity)
    ensures UniqueKeys(RouteJson(r))
  {
    RouteKeysDistinct(r);
  }

  /** Records of plain values that are equal as JSON are equal field by field. */
  lemma {:induction false} SameRecord(f: seq<Field>, g: seq<Field>)
    requires SameKeys(f, g) && DistinctKeys(g) && SameValue(JObj(f), JObj(g))
    requires forall i | 0 <= i < |f| :: NoObject(f[i].value)
    ensures f == g
  {
    hide NoObject;
    forall i | 0 <= i < |f| ensures f[i] == g[i] {
      RecordValues(f, g, i);
      SamePlain(f[i].value, g[i].value);
    }
  }

  lemma {:induction false} RoutePlain(r: RouteIdentity, i: nat)
    requires i < 6
    ensures NoObject(RouteJson(r).fields[i].value)
  {}

  lemma {:induction false} SameRoute(a: RouteIdentity, b: RouteIdentity)
    requires SameValue(RouteJson(a), RouteJson(b))
    ensures a == b
  {
    hide SameValue, NoObject, DistinctKeys;
    var f, g := RouteJson(a).fields, RouteJson(b).fields;
    RouteKeysDistinct(b);
    forall i | 0 <= i < |f| ensures NoObject(f[i].value) { RoutePlain(a, i); }
    SameRecord(f, g);
    RouteFields(a, b);
  }

  lemma {:induction false} RouteFields(a: RouteIdentity, b: RouteIdentity)
    requires RouteJson(a).fields == RouteJson(b).fields
    ensures a == b
  {
    var f, g := RouteJson(a).fields, RouteJson(b).fields;
    assert f[0] == g[0] && f[1] == g[1] && f[2] == g[2] && f[3] == g[3] && f[4] == g[4] && f[5] == g[5];
  }

  lemma {:induction false} ValuePlain(number: FloatText, v: Value)
    requires !v.Routes?
    ensures NoObject(ValueJson(number, v))
  {}

  lemma {:induction false} ValueUnique(number: FloatText, v: Value)
    ensures UniqueKeys(ValueJson(number, v))
  {
    if v.Routes? {
      forall i | 0 <= i < |v.routes| ensures UniqueKeys(Map(RouteJson, v.routes)[i]) { RouteJsonUnique(v.routes[i]); }
    } else {
      ValuePlain(number, v);
      PlainUnique(ValueJson(number, v));
    }
  }

  /** The values two deltas of one kind hold are told apart by their JSON. */
  predicate SameShape(v: Value, w: Value) {
    match v
    case Whole(_) => w.Whole?
    case MaybeWhole(_) => w.MaybeWhole?
    case MaybeMedian(_) => w.MaybeMedian?
    case Pairs(_) => w.Pairs?
    case Wholes(_) => w.Wholes?
    case Texts(_) => w.Texts?
    case Routes(_) => w.Routes?
  }

  /** Medians print alike: both are the same, or floats of one text. */
  predicate SameMedianPrint(number: FloatText, a: Option<MedianValue>, b: Option<MedianValue>) {
    if a.Some? && b.Some? && a.value.FloatMedian? && b.value.FloatMedian?
    then number(a.value.value) == number(b.value.value)
    else a == b
  }

  /** Two values print alike: they are equal, a median also in being whole or a float. */
  predicate SamePrint(number: FloatText, v: Value, w: Value) {
    if v.MaybeMedian? && w.MaybeMedian? then SameMedianPrint(number, v.median, w.median) else v == w
  }

  lemma {:induction false} SamePrintSameJson(number: FloatText, v: Value, w: Value)
    requires SamePrint(number, v, w)
    ensures ValueJson(number, v) == ValueJson(number, w)
  {}

  lemma {:induction false} SameJsonSamePrint(number: FloatText, v: Value, w: Value)
    requires SameShape(v, w) && SameValue(ValueJson(number, v), ValueJson(number, w))
    ensures SamePrint(number, v, w)
  {
    if v.MaybeMedian? {
      MedianPrints(number, v.median, w.median);
    } else {
      SameJsonSameValue(number, v, w);
    }
  }

  lemma {:induction false} MedianPrints(number: FloatText, a: Option<MedianValue>, b: Option<MedianValue>)
    requires SameValue(MedianJson(number, a), MedianJson(number, b))
    ensures SameMedianPrint(number, a, b)
  {
    assert MedianJson(number, a) == MedianJson(number, b);
  }

  lemma {:induction false} SameJsonSameValue(number: FloatText, v: Value, w: Value)
    requires SameShape(v, w) && !v.MaybeMedian? && SameValue(ValueJson(number, v), ValueJson(number, w))
    ensures v == w
  {
    var a, b := ValueJson(number, v), ValueJson(number, w);
    if v.Routes? {
      forall i | 0 <= i < |v.routes| ensures v.routes[i] == w.routes[i] {
        assert SameValue(a.items[i], b.items[i]);
        SameRoute(v.routes[i], w.routes[i]);
      }
      assert v.routes == w.routes;
    } else {
      ValuePlain(number, v);
      SamePlain(a, b);
      PlainInjective(number, v, w);
    }
  }

  lemma {:induction false} PlainInjective(number: FloatText, v: Value, w: Value)
    requires SameShape(v, w) && !v.MaybeMedian? && !v.Routes? && ValueJson(number, v) == ValueJson(number, w)
    ensures v == w
  {
    match v
    case Pairs(pairs) =>
      forall i | 0 <= i < |pairs| ensures pairs[i] == w.pairs[i] {
        assert StoredPairs(pairs)[i] == StoredPairs(w.pairs)[i];
        assert [JStr(pairs[i].0), JInt(pairs[i].1)][0] == JStr(w.pairs[i].0);
        assert [JStr(pairs[i].0), JInt(pairs[i].1)][1] == JInt(w.pairs[i].1);
      }
      assert |StoredPairs(pairs)| == |StoredPairs(w.pairs)|;
      assert pairs == w.pairs;
    case Wholes(values) =>
      assert |StoredInts(values)| == |StoredInts(w.wholes)|;
      forall i | 0 <= i < |values| ensures values[i] == w.wholes[i] {
        assert StoredInts(values)[i] == StoredInts(w.wholes)[i];
      }
      assert values == w.wholes;
    case Texts(texts) =>
      assert |Map(Text, texts)| == |Map(Text, w.texts)|;
      forall i | 0 <= i < |texts| ensures texts[i] == w.texts[i] {
        assert Map(Text, texts)[i] == Map(Text, w.texts)[i];
      }
      assert texts == w.texts;
    case _ =>
  }

  // ---------------------------------------------------------------- fingerprints

  lemma {:induction false} ChangeKeysDistinct(number: FloatText, domain: string, path: string, before: Value,
      after: Value)
    ensures DistinctKeys(ChangeFields(number, domain, path, before, after))
  {
    assert "reference_value"[0] != "candidate_value"[0];
  }

  /** The digested record names the reference value and the candidate value apart. */
  lemma {:induction false} ChangeReads(number: FloatText, domain: string, path: string, before: Value, after: Value)
    ensures var f := ChangeFields(number, domain, path, before, after);
      && |f| == 4 && Get(f, "domain") == JStr(domain) && Get(f, "path") == JStr(path)
      && Get(f, "reference_value") == ValueJson(number, before)
      && Get(f, "candidate_value") == ValueJson(number, after)
  {
    hide ValueJson;
    ChangeKeysDistinct(number, domain, path, before, after);
    var f := ChangeFields(number, domain, path, before, after);
    assert Get(f[3..], "candidate_value") == f[3].value;
    assert Get(f[2..], "candidate_value") == f[3].value by { assert f[2..][1..] == f[3..]; }
    assert Get(f[1..], "candidate_value") == f[3].value by { assert f[1..][1..] == f[2..]; }
    assert Get(f[2..], "reference_value") == f[2].value;
    assert Get(f[1..], "reference_value") == f[2].value by { assert f[1..][1..] == f[2..]; }
  }

  lemma {:induction false} ChangeUnique(number: FloatText, domain: string, path: string, before: Value, after: Value)
    ensures UniqueKeys(JObj(ChangeFields(number, domain, path, before, after)))
  {
    hide ValueJson;
    ChangeKeysDistinct(number, domain, path, before, after);
    ValueUnique(number, before);
    ValueUnique(number, after);
  }

  /** With a collision-free hash two fingerprints are equal exactly when domain and path are equal
      and both values print alike. */
  lemma {:induction false} FingerprintDecidesChange(
      sha256: string -> string, number: FloatText,
      domain: string, path: string, before: Value, after: Value,
      domain': string, path': string, before': Value, after': Value)
    requires Injective(sha256) && SameShape(before, before') && SameShape(after, after')
    ensures var fp := DigestFingerprint(sha256, number);
      fp(domain, path, before, after) == fp(domain', path', before', after') <==>
        domain == domain' && path == path' && SamePrint(number, before, before') && SamePrint(number, after, after')
  {
    hide ValueJson, SameShape, SamePrint, SameValue, UniqueKeys, DistinctKeys;
    var f, g := ChangeFields(number, domain, path, before, after),
        ChangeFields(number, domain', path', before', after');
    ChangeUnique(number, domain, path, before, after);
    ChangeUnique(number, domain', path', before', after');
    DigestDecidesEquality(sha256, JObj(f), JObj(g));
    if SameValue(JObj(f), JObj(g)) {
      ChangeKeysDistinct(number, domain', path', before', after');
      SameChange(number, f, g, domain, path, before, after, domain', path', before', after');
    }
    if domain == domain' && path == path' && SamePrint(number, before, before') && SamePrint(number, after, after') {
      SamePrintSameJson(number, before, before');
      SamePrintSameJson(number, after, after');
    }
  }

  lemma {:induction false} SameChange(
      number: FloatText, f: seq<Field>, g: seq<Field>,
      domain: string, path: string, before: Value, after: Value,
      domain': string, path': string, before': Value, after': Value)
    requires SameShape(before, before') && SameShape(after, after')
    requires f == ChangeFields(number, domain, path, before, after)
    requires g == ChangeFields(number, domain', path', before', after')
    requires DistinctKeys(g) && SameValue(JObj(f), JObj(g))
    ensures domain == domain' && path == path' && SamePrint(number, before, before') && SamePrint(number, after, after')
  {
    hide ValueJson, SameShape, SamePrint, SameValue, DistinctKeys, NoObject;
    SameKeysHere(number, f, g, domain, path, before, after, domain', path', before', after');
    RecordValues(f, g, 0);
    RecordValues(f, g, 1);
    RecordValues(f, g, 2);
    RecordValues(f, g, 3);
    SameTexts(domain, domain');
    SameTexts(path, path');
    SameJsonSamePrint(number, before, before');
    SameJsonSamePrint(number, after, after');
  }

  lemma {:induction false} SameTexts(a: string, b: string)
    requires SameValue(JStr(a), JStr(b))
    ensures a == b
  {}

  lemma {:induction false} SameKeysHere(
      number: FloatText, f: seq<Field>, g: seq<Field>,
      domain: string, path: string, before: Value, after: Value,
      domain': string, path': string, before': Value, after': Value)
    requires f == ChangeFields(number, domain, path, before, after)
    requires g == ChangeFields(number, domain', path', before', after')
    ensures SameKeys(f, g)
  {}

  // ---------------------------------------------------------------- the comparator's deltas

  /** The place of a summary field, told by its name's length and one letter. */
  function Place(name: string): int {
    if |name| == 11 then 0
    else if |name| == 15 then
      (if name[0] == 'c' then 1 else if name[0] == 'r' then 10
       else if name[9] == 'p' then 13 else if name[10] == 'i' then 11 else 14)
    else if |name| == 18 then (if name[0] == 'i' then 2 else 12)
    else if |name| == 13 then 3
    else if |name| == 12 then 4
    else if |name| == 17 then (if name[0] == 'u' then 5 else 8)
    else if |name| == 27 then 6
    else if |name| == 25 then 7
    else 9
  }

  lemma {:induction false} PlaceOfField(f: SummaryField)
    ensures FIELDS[Place(f.Name())] == f
  {}

  lemma {:induction false} PathsDiffer(f: SummaryField, g: SummaryField)
    ensures f.Path() == g.Path() <==> f == g
  {
    if f.Path() == g.Path() {
      var front := "operating_summary.";
      assert f.Path()[|front|..] == f.Name() && g.Path()[|front|..] == g.Name();
      PlaceOfField(f);
      PlaceOfField(g);
    }
  }

  lemma {:induction false} SameFieldShape(f: SummaryField, a: Summary, b: Summary)
    ensures SameShape(FieldValue(a, f), FieldValue(b, f))
  {}

  /** Two operating deltas, of whatever runs, share a fingerprint exactly when they change one
      field between values that print alike. */
  lemma {:induction false} FieldFingerprints(
      sha256: string -> string, number: FloatText,
      reference: Summary, candidate: Summary, f: SummaryField,
      reference': Summary, candidate': Summary, g: SummaryField)
    requires Injective(sha256)
    ensures var fp := DigestFingerprint(sha256, number);
      FieldDelta(fp, reference, candidate, f).fingerprint == FieldDelta(fp, reference', candidate', g).fingerprint <==>
        && f == g
        && SamePrint(number, FieldValue(reference, f), FieldValue(reference', f))
        && SamePrint(number, FieldValue(candidate, f), FieldValue(candidate', f))
  {
    hide FieldValue, SameShape, SamePrint, DigestFingerprint, SummaryField.Path;
    var fp := DigestFingerprint(sha256, number);
    PathsDiffer(f, g);
    SameFieldShape(f, reference, reference');
    SameFieldShape(f, candidate, candidate');
    FingerprintDecidesChange(sha256, number,
                             "operating", f.Path(), FieldValue(reference, f), FieldValue(candidate, f),
                             "operating", f.Path(), FieldValue(reference', f), FieldValue(candidate', f));
    if FieldDelta(fp, reference, candidate, f).fingerprint == FieldDelta(fp, reference', candidate', g).fingerprint {
      PathOfFingerprint(sha256, number, f.Path(), FieldValue(reference, f), FieldValue(candidate, f),
                        g.Path(), FieldValue(reference', g), FieldValue(candidate', g));
    }
  }

  /** Equal fingerprints name one path, whatever the values. */
  lemma {:induction false} PathOfFingerprint(
      sha256: string -> string, number: FloatText,
      path: string, before: Value, after: Value, path': string, before': Value, after': Value)
    requires Injective(sha256)
    requires var fp := DigestFingerprint(sha256, number);
      fp("operating", path, before, after) == fp("operating", path', before', after')
    ensures path == path'
  {
    hide ValueJson, SameValue, UniqueKeys, DistinctKeys;
    var f := ChangeFields(number, "operating", path, before, after);
    var g := ChangeFields(number, "operating", path', before', after');
    ChangeUnique(number, "operating", path, before, after);
    ChangeUnique(number, "operating", path', before', after');
    DigestDecidesEquality(sha256, JObj(f), JObj(g));
    ChangeKeysDistinct(number, "operating", path', before', after');
    SameKeysHere(number, f, g, "operating", path, before, after, "operating", path', before', after');
    RecordValues(f, g, 1);
    SameTexts(path, path');
  }

  /** The envelope that lists the changes of `fields`. */
  function ApprovalOf(fp: Fingerprint, reference: Snapshot, candidate: Snapshot, fields: seq<SummaryField>): Envelope {
    Some(Map(FingerprintOf(fp, reference, candidate), fields))
  }

  function FingerprintOf(fp: Fingerprint, reference: Snapshot, candidate: Snapshot): SummaryField -> string {
    (f: SummaryField) => FieldDelta(fp, reference.summary, candidate.summary, f).fingerprint
  }

  /** An envelope approves exactly the changes it lists: a change of another run is approved only
      if it is of a listed field, between values that print alike. */
  lemma {:induction false} EnvelopeApprovesListed(
      sha256: string -> string, number: FloatText, reference: Snapshot, candidate: Snapshot, fields: seq<SummaryField>,
      reference': Snapshot, candidate': Snapshot, f: SummaryField)
    requires Injective(sha256)
    ensures var fp := DigestFingerprint(sha256, number);
      FieldAllowed(fp, reference', candidate', ApprovalOf(fp, reference, candidate, fields), f) <==>
        && f in fields
        && SamePrint(number, FieldValue(reference'.summary, f), FieldValue(reference.summary, f))
        && SamePrint(number, FieldValue(candidate'.summary, f), FieldValue(candidate.summary, f))
  {
    hide FieldDelta, DigestFingerprint, FieldValue, SamePrint;
    var fp := DigestFingerprint(sha256, number);
    var prints := Map(FingerprintOf(fp, reference, candidate), fields);
    var hash' := FieldDelta(fp, reference'.summary, candidate'.summary, f).fingerprint;
    if f in fields {
      var i :| 0 <= i < |fields| && fields[i] == f;
      assert prints[i] in prints;
      FieldFingerprints(sha256, number, reference'.summary, candidate'.summary, f,
                        reference.summary, candidate.summary, f);
    }
    if hash' in prints {
      var i :| 0 <= i < |prints| && prints[i] == hash';
      FieldFingerprints(sha256, number, reference'.summary, candidate'.summary, f,
                        reference.summary, candidate.summary, fields[i]);
    }
  }

  /** A verified candidate without hard gates, on unchanged routes and with only durations moved,
      passes under an approval of `fields` exactly when that approves all its changes or none.
      Approving some of them, and not all, withdraws the pass it has without any approval. */
  lemma {:induction false} ApprovalIsAllOrNothing(
      sha256: string -> string, number: FloatText, record: Record, reference: Snapshot, candidate: Snapshot,
      fields: seq<SummaryField>)
    requires Injective(sha256)
    requires Verified(record, reference, candidate) && candidate.hardGates == [] && reference.routes == candidate.routes
    requires forall f: SummaryField :: FieldChanged(reference, candidate, f) ==> f.IsDuration()
    ensures var fp := DigestFingerprint(sha256, number);
      && Passes(fp, record, reference, candidate, None)
      && (Passes(fp, record, reference, candidate, ApprovalOf(fp, reference, candidate, fields)) <==>
            || (forall f: SummaryField | FieldChanged(reference, candidate, f) :: f in fields)
            || (forall f: SummaryField | FieldChanged(reference, candidate, f) :: f !in fields))
  {
    hide Assess, Passes, Verified, FieldChanged, FieldAllowed, RouteDelta, DigestFingerprint, ApprovalOf, FieldValue;
    var fp := DigestFingerprint(sha256, number);
    var approval := ApprovalOf(fp, reference, candidate, fields);
    forall f: SummaryField ensures FieldAllowed(fp, reference, candidate, approval, f) <==> f in fields {
      EnvelopeApprovesListed(sha256, number, reference, candidate, fields, reference, candidate, f);
    }
    forall f: SummaryField ensures !FieldAllowed(fp, reference, candidate, None, f) {
      NothingAllowed(fp, reference, candidate, f);
    }
    ExactVerdict(fp, record, reference, candidate, None);
    ExactVerdict(fp, record, reference, candidate, approval);
  }

  /** The smallest case: two durations moved; approving one of them turns the pass into a hold,
      approving both passes again. */
  lemma {:induction false} ApprovalIsNotMonotone(
      sha256: string -> string, number: FloatText, record: Record, reference: Snapshot, candidate: Snapshot)
    requires Injective(sha256)
    requires Verified(record, reference, candidate) && candidate.hardGates == [] && reference.routes == candidate.routes
    requires forall f: SummaryField :: FieldChanged(reference, candidate, f) <==> f.DurationMin? || f.DurationMax?
    ensures var fp := DigestFingerprint(sha256, number);
      && Passes(fp, record, reference, candidate, None)
      && !Passes(fp, record, reference, candidate, ApprovalOf(fp, reference, candidate, [DurationMin]))
      && Passes(fp, record, reference, candidate, ApprovalOf(fp, reference, candidate, [DurationMin, DurationMax]))
  {
    hide Passes, Verified, FieldChanged, DigestFingerprint, ApprovalOf;
    ApprovalIsAllOrNothing(sha256, number, record, reference, candidate, [DurationMin]);
    ApprovalIsAllOrNothing(sha256, number, record, reference, candidate, [DurationMin, DurationMax]);
    assert FieldChanged(reference, candidate, DurationMin) && FieldChanged(reference, candidate, DurationMax);
  }

  lemma {:induction false} NothingAllowed(fp: Fingerprint, reference: Snapshot, candidate: Snapshot, f: SummaryField)
    ensures !FieldAllowed(fp, reference, candidate, None, f)
  {}

  // ---------------------------------------------------------------- medians of two forms

  /** The text tells the floats apart that medians of integers can be. */
  ghost predicate InjectiveOnHalves(number: FloatText) {
    forall x: int, y: int :: number(Half(x)) == number(Half(y)) ==> x == y
  }

  /** There is such a text. */
  lemma {:induction false} HalvesHaveTexts()
    ensures InjectiveOnHalves((x: real) => IntText((x * 2.0).Floor))
  {
    var number := (x: real) => IntText((x * 2.0).Floor);
    forall x: int, y: int | number(Half(x)) == number(Half(y)) ensures x == y {
      assert (Half(x) * 2.0).Floor == x && (Half(y) * 2.0).Floor == y;
      IntTextInjective(x, y);
    }
  }

  lemma {:induction false} IntTextInjective(x: int, y: int)
    requires IntText(x) == IntText(y)
    ensures x == y
  {
    var a, b := Digits(if x < 0 then -x else x), Digits(if y < 0 then -y else y);
    DigitsAreDigits(if x < 0 then -x else x);
    DigitsAreDigits(if y < 0 then -y else y);
    assert IsDigit(a[0]) && IsDigit(b[0]) && !IsDigit('-') by { assert a[0] in a && b[0] in b; }
    assert IntText(x)[0] == (if x < 0 then '-' else a[0]);
    assert IntText(y)[0] == (if y < 0 then '-' else b[0]);
    assert (if x < 0 then IntText(x)[1..] else IntText(x)) == a;
    assert (if y < 0 then IntText(y)[1..] else IntText(y)) == b;
  }

  /** Equal medians of two lists print alike exactly when both lists have an even number of values
      or both an odd one. */
  lemma {:induction false} MedianPrint(number: FloatText, xs: seq<int>, ys: seq<int>)
    requires InjectiveOnHalves(number)
    ensures SameMedianPrint(number, Median(xs), Median(ys)) <==>
      SameMedian(Median(xs), Median(ys)) && |xs| % 2 == |ys| % 2
  {
    hide Median;
    MedianForm(xs);
    MedianForm(ys);
    var a, b := Median(xs), Median(ys);
    if a.Some? && b.Some? && a.value.FloatMedian? && b.value.FloatMedian? {
      var x: int :| a.value.value == Half(x);
      var y: int :| b.value.value == Half(y);
      assert number(Half(x)) == number(Half(y)) ==> x == y;
    }
  }

  /** The durations of a run's trials. */
  function DurationsIn(run: Run): seq<int> { Map(IntegerOf, Collect(MeasuredDuration, run.trials)) }

  /** A loaded summary holds the median of the durations of its trials. */
  lemma {:induction false} LoadedMedian(p: Platform, run: Run)
    requires LoadRunEvidence(p, run).Ok?
    ensures LoadRunEvidence(p, run).value.summary.durationMedian
         == Median(DurationsIn(run))
  {
    hide Median, SummaryFromTrials, NewSummary, GatesFromTrials, OfficialGates, RoutesFromTrials, OfficialRoutes,
         PairCounts, AnchorsAgree, IsAnchors, AnchorTexts, AggregateMatches, LiveDigestMatches, GatesMatch, SameSummary,
         MeasuredDuration, ValidAnchors, WellFormedPairs, IsIdentifier;
    SummaryMedian(p, run.trials);
  }

  lemma {:induction false} SummaryMedian(p: Platform, trials: seq<Trial>)
    requires SummaryFromTrials(p, trials).Ok?
    ensures SummaryFromTrials(p, trials).value.durationMedian
         == Median(Map(IntegerOf, Collect(MeasuredDuration, trials)))
  {
    hide Median, ColumnError, PairCounts, CountsError, ListsError, DurationsError, MeasuredDuration, Collect, Map,
         Sorted, PairsOf, IntsOf;
  }

  lemma {:induction false} MedianChangePrints(
      sha256: string -> string, number: FloatText,
      reference: Summary, candidate: Summary, reference': Summary, candidate': Summary,
      xs: seq<int>, ys: seq<int>, xs': seq<int>, ys': seq<int>)
    requires Injective(sha256) && InjectiveOnHalves(number)
    requires reference.durationMedian == Median(xs) && candidate.durationMedian == Median(ys)
    requires reference'.durationMedian == Median(xs') && candidate'.durationMedian == Median(ys')
    ensures var fp := DigestFingerprint(sha256, number);
      FieldDelta(fp, reference, candidate, DurationMedian).fingerprint
      == FieldDelta(fp, reference', candidate', DurationMedian).fingerprint <==>
        && SameMedian(Median(xs), Median(xs')) && |xs| % 2 == |xs'| % 2
        && SameMedian(Median(ys), Median(ys')) && |ys| % 2 == |ys'| % 2
  {
    hide Median, FieldDelta, DigestFingerprint, SameMedian, SameMedianPrint;
    FieldFingerprints(sha256, number, reference, candidate, DurationMedian, reference', candidate', DurationMedian);
    MedianPrint(number, xs, xs');
    MedianPrint(number, ys, ys');
  }

  /** When two median changes between loaded runs are one change to an envelope: besides equal
      medians before and after it takes equal parities of the numbers of durations. */
  lemma {:induction false} MedianChangeFingerprints(
      sha256: string -> string, number: FloatText, p: Platform,
      reference: Run, candidate: Run, reference': Run, candidate': Run)
    requires Injective(sha256) && InjectiveOnHalves(number)
    requires LoadRunEvidence(p, reference).Ok? && LoadRunEvidence(p, candidate).Ok?
    requires LoadRunEvidence(p, reference').Ok? && LoadRunEvidence(p, candidate').Ok?
    ensures var a, b := LoadRunEvidence(p, reference).value.summary, LoadRunEvidence(p, candidate).value.summary;
      var a', b' := LoadRunEvidence(p, reference').value.summary, LoadRunEvidence(p, candidate').value.summary;
      var fp := DigestFingerprint(sha256, number);
      FieldDelta(fp, a, b, DurationMedian).fingerprint == FieldDelta(fp, a', b', DurationMedian).fingerprint <==>
        && SameMedian(a.durationMedian, a'.durationMedian)
        && |DurationsIn(reference)| % 2 == |DurationsIn(reference')| % 2
        && SameMedian(b.durationMedian, b'.durationMedian)
        && |DurationsIn(candidate)| % 2 == |DurationsIn(candidate')| % 2
  {
    hide LoadRunEvidence, Median, FieldDelta, DigestFingerprint, SameMedian, DurationsIn;
    LoadedMedian(p, reference);
    LoadedMedian(p, candidate);
    LoadedMedian(p, reference');
    LoadedMedian(p, candidate');
    MedianChangePrints(
      sha256, number,
      LoadRunEvidence(p, reference).value.summary, LoadRunEvidence(p, candidate).value.summary,
      LoadRunEvidence(p, reference').value.summary, LoadRunEvidence(p, candidate').value.summary,
      DurationsIn(reference), DurationsIn(candidate), DurationsIn(reference'), DurationsIn(candidate'));
  }

  /** A median of 5 over one duration and over two are equal to the comparator, but the approval of
      a change from the one does not approve the same change from the other. */
  lemma {:induction false} ParityHidesApproval(
      sha256: string -> string, number: FloatText,
      reference: Snapshot, candidate: Snapshot, reference': Snapshot, candidate': Snapshot)
    requires Injective(sha256)
    requires reference.summary.durationMedian == Median([5]) && candidate.summary.durationMedian == Median([6])
    requires reference'.summary.durationMedian == Median([5, 5]) && candidate'.summary.durationMedian == Median([6])
    ensures var fp := DigestFingerprint(sha256, number);
      && !FieldChanged(reference, reference', DurationMedian) && !FieldChanged(candidate, candidate', DurationMedian)
      && FieldAllowed(fp, reference, candidate, ApprovalOf(fp, reference, candidate, FIELDS), DurationMedian)
      && !FieldAllowed(fp, reference', candidate', ApprovalOf(fp, reference, candidate, FIELDS), DurationMedian)
  {
    FivesAreEqual();
    EveryFieldListed(DurationMedian);
    hide Median, FieldAllowed, DigestFingerprint, ApprovalOf;
    EnvelopeApprovesListed(sha256, number, reference, candidate, FIELDS, reference, candidate, DurationMedian);
    EnvelopeApprovesListed(sha256, number, reference, candidate, FIELDS, reference', candidate', DurationMedian);
  }

  lemma {:induction false} FivesAreEqual()
    ensures Median([5]) == Some(WholeMedian(5)) && Median([5, 5]) == Some(FloatMedian(5.0))
    ensures SameMedian(Median([5]), Median([5, 5]))
  {
    SortedIsSortedPermutation(IntLeq, [5]);
    SortedFixpoint(IntLeq, [5]);
    SortedFixpoint(IntLeq, [5, 5]);
  }
}
