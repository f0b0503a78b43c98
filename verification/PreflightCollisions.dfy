/** The collision findings of preflight: three ways in which destinations coincide. */
module PreflightCollisions {
  import opened Ordering

  datatype Record = Record(source: string, isMatched: bool, destination: string)

  /** How destinations are compared: normal form, then case folding. */
  datatype Forms = Forms(nfc: string -> string, fold: string -> string) {
    function Raw(): Record -> string { (r: Record) => r.destination }

    function Normal(): Record -> string { (r: Record) => nfc(r.destination) }

    function Folded(): Record -> string { (r: Record) => fold(nfc(r.destination)) }
  }

  datatype Code = ExactCollision | NormalizationCollision | CaseCollision

  datatype Finding = Finding(code: Code, records: seq<Record>)

  /** The records that count: matched ones with a destination. */
  predicate Counts(r: Record) {
    r.isMatched && r.destination != ""
  }

  function Counting(records: seq<Record>): (counting: seq<Record>)
    ensures forall r :: r in counting <==> r in records && r.isMatched && r.destination != ""
  {
    FilterHas(records, Counts);
    Filter(records, Counts)
  }

  /** Two entries of the list agree under one form and differ under a finer one. */
  ghost predicate Coincide(records: seq<Record>, code: Code, forms: Forms) {
    exists i, j :: 0 <= i < j < |records| && Conflict(records[i], records[j], code, forms)
  }

  predicate Conflict(r: Record, s: Record, code: Code, forms: Forms) {
    match code
    case ExactCollision => r.destination == s.destination
    case NormalizationCollision => forms.Normal()(r) == forms.Normal()(s) && r.destination != s.destination
    case CaseCollision => forms.Folded()(r) == forms.Folded()(s) && forms.Normal()(r) != forms.Normal()(s)
  }

  function WithForm(f: Record -> string, k: string): Record -> bool {
    (r: Record) => f(r) == k
  }

  function Where(records: seq<Record>, f: Record -> string, k: string): (some: seq<Record>)
    ensures forall r :: r in some <==> r in records && f(r) == k
  {
    FilterHas(records, WithForm(f, k));
    Filter(records, WithForm(f, k))
  }

  lemma WhereAppend(records: seq<Record>, r: Record, f: Record -> string, k: string)
    ensures Where(records + [r], f, k) == if f(r) == k then Where(records, f, k) + [r] else Where(records, f, k)
  {
    FilterAppend(records, r, WithForm(f, k));
  }

  function BucketAt(buckets: map<string, seq<Record>>, k: string): seq<Record> {
    if k in buckets then buckets[k] else []
  }

  method Buckets(records: seq<Record>, f: Record -> string) returns (buckets: map<string, seq<Record>>)
    ensures buckets.Keys == Image(records, f)
    ensures forall k :: BucketAt(buckets, k) == Where(records, f, k)
  {
    hide Where, Image;
    buckets := map[];
    assert records[..0] == [];
    NoBuckets(f);
    for i := 0 to |records|
      invariant buckets.Keys == Image(records[..i], f)
      invariant forall k :: BucketAt(buckets, k) == Where(records[..i], f, k)
    {
      var r := records[i];
      assert records[..i + 1] == records[..i] + [r];
      OneMoreInImage(records[..i], r, f);
      ghost var before := buckets;
      buckets := buckets[f(r) := BucketAt(buckets, f(r)) + [r]];
      forall k
        ensures BucketAt(buckets, k) == Where(records[..i + 1], f, k)
      {
        WhereAppend(records[..i], r, f, k);
        assert BucketAt(before, k) == Where(records[..i], f, k);
      }
    }
    assert records[..|records|] == records;
  }

  lemma NoBuckets(f: Record -> string)
    ensures Image([], f) == {} && forall k :: Where([], f, k) == []
  {
  }

  ghost predicate PairAt(records: seq<Record>, f: Record -> string, k: string) {
    exists i, j :: 0 <= i < j < |records| && f(records[i]) == k && f(records[j]) == k
  }

  lemma OneMoreInPairs(records: seq<Record>, r: Record, f: Record -> string, k: string)
    ensures PairAt(records + [r], f, k) <==> PairAt(records, f, k) || (f(r) == k && Where(records, f, k) != [])
  {
    hide Where;
    var all := records + [r];
    if PairAt(all, f, k) {
      var i, j :| 0 <= i < j < |all| && f(all[i]) == k && f(all[j]) == k;
      assert all[i] == records[i] && records[i] in Where(records, f, k);
      if j < |records| {
        assert all[j] == records[j];
      }
    }
    if i, j :| 0 <= i < j < |records| && f(records[i]) == k && f(records[j]) == k {
      assert all[i] == records[i] && all[j] == records[j];
    }
    if f(r) == k && Where(records, f, k) != [] {
      var s := Where(records, f, k)[0];
      assert s in Where(records, f, k);
      var i :| 0 <= i < |records| && records[i] == s;
      assert f(all[i]) == k && f(all[|records|]) == k;
    }
  }

  /** A bucket of several records is a pair of entries with that key. */
  lemma {:induction false} SeveralArePairs(records: seq<Record>, f: Record -> string, k: string)
    ensures |Where(records, f, k)| > 1 <==> PairAt(records, f, k)
    decreases |records|
  {
    hide Where, PairAt;
    if records == [] {
      NoPairs(f, k);
    } else {
      var init, r := records[..|records| - 1], records[|records| - 1];
      assert records == init + [r];
      SeveralArePairs(init, f, k);
      WhereAppend(init, r, f, k);
      OneMoreInPairs(init, r, f, k);
    }
  }

  lemma NoPairs(f: Record -> string, k: string)
    ensures Where([], f, k) == [] && !PairAt([], f, k)
  {
  }

  /** A finding names all records of one coarse form, in order, if they are several and,
      but for exact collisions, of several finer forms. */
  ghost predicate IsFinding(records: seq<Record>, f: Finding, forms: Forms) {
    && Reportable(f.records, f.code, forms)
    && exists k :: f.records == Where(records, CoarseForm(f.code, forms), k)
  }

  /** Bucket by bucket: every bucket that is to be reported, and no other. */
  method BucketFindings(records: seq<Record>, code: Code, forms: Forms) returns (findings: seq<Finding>)
    ensures forall f :: f in findings <==> f.code == code && IsFinding(records, f, forms)
  {
    hide Where, Image;
    var coarse := CoarseForm(code, forms);
    var buckets := Buckets(records, coarse);
    findings := [];
    var todo := buckets.Keys;
    ghost var reported: set<string> := {};
    while todo != {}
      invariant todo <= buckets.Keys
      invariant forall f :: f in findings ==> f.code == code && IsFinding(records, f, forms)
      invariant forall k :: k in buckets && k !in todo && Reportable(Where(records, coarse, k), code, forms) ==>
                  Finding(code, Where(records, coarse, k)) in findings
      decreases |todo|
    {
      assert (forall k :: k !in todo) ==> todo == {};
      var k :| k in todo;
      todo := todo - {k};
      assert BucketAt(buckets, k) == Where(records, coarse, k);
      if Reportable(buckets[k], code, forms) {
        findings := findings + [Finding(code, buckets[k])];
      }
    }
    forall f: Finding | f.code == code && IsFinding(records, f, forms)
      ensures f in findings
    {
      var k :| f.records == Where(records, coarse, k);
      if k !in buckets { EmptyBucket(records, coarse, k); }
      assert f == Finding(code, Where(records, coarse, k));
    }
  }

  lemma EmptyBucket(records: seq<Record>, f: Record -> string, k: string)
    requires k !in Image(records, f)
    ensures Where(records, f, k) == []
  {
    assert forall r :: r in records ==> f(r) in Image(records, f);
    assert forall r :: r !in Where(records, f, k);
    NothingInside(Where(records, f, k));
  }

  function CoarseForm(code: Code, forms: Forms): Record -> string {
    match code
    case ExactCollision => forms.Raw()
    case NormalizationCollision => forms.Normal()
    case CaseCollision => forms.Folded()
  }

  function FineForm(code: Code, forms: Forms): Record -> string {
    if code.CaseCollision? then forms.Normal() else forms.Raw()
  }

  predicate Reportable(bucket: seq<Record>, code: Code, forms: Forms) {
    |bucket| > 1 && (code.ExactCollision? || |Image(bucket, FineForm(code, forms))| > 1)
  }

  lemma ConflictIsReportable(records: seq<Record>, i: int, j: int, code: Code, forms: Forms)
    requires 0 <= i < j < |records| && Conflict(records[i], records[j], code, forms)
    ensures Reportable(Where(records, CoarseForm(code, forms), CoarseForm(code, forms)(records[i])), code, forms)
  {
    hide Where;
    var coarse, fine := CoarseForm(code, forms), FineForm(code, forms);
    var bucket := Where(records, coarse, coarse(records[i]));
    assert PairAt(records, coarse, coarse(records[i]));
    SeveralArePairs(records, coarse, coarse(records[i]));
    assert records[i] in bucket && records[j] in bucket;
    if !code.ExactCollision? {
      AtLeastTwo(Image(bucket, fine), fine(records[i]), fine(records[j]));
    }
  }

  lemma ReportableIsConflict(records: seq<Record>, k: string, code: Code, forms: Forms)
    requires Reportable(Where(records, CoarseForm(code, forms), k), code, forms)
    ensures Coincide(records, code, forms)
  {
    hide Where;
    var coarse, fine := CoarseForm(code, forms), FineForm(code, forms);
    var bucket := Where(records, coarse, k);
    SeveralArePairs(records, coarse, k);
    if code.ExactCollision? {
      var i, j :| 0 <= i < j < |records| && coarse(records[i]) == k && coarse(records[j]) == k;
      assert Conflict(records[i], records[j], code, forms);
    } else {
      var a, b := TwoElements(Image(bucket, fine));
      var r :| r in bucket && fine(r) == a;
      var s :| s in bucket && fine(s) == b;
      var i :| 0 <= i < |records| && records[i] == r;
      var j :| 0 <= j < |records| && records[j] == s;
      assert Conflict(records[if i < j then i else j], records[if i < j then j else i], code, forms);
    }
  }

  lemma ReportableExactly(records: seq<Record>, code: Code, forms: Forms)
    ensures (exists k :: Reportable(Where(records, CoarseForm(code, forms), k), code, forms)) <==> Coincide(records, code, forms)
  {
    hide Where, Reportable, Conflict;
    if i, j :| 0 <= i < j < |records| && Conflict(records[i], records[j], code, forms) {
      ConflictIsReportable(records, i, j, code, forms);
    }
    if k :| Reportable(Where(records, CoarseForm(code, forms), k), code, forms) {
      ReportableIsConflict(records, k, code, forms);
    }
  }

  /** Some finding of a kind is due exactly when two records conflict in that way. */
  lemma FindingsExactly(records: seq<Record>, code: Code, forms: Forms)
    ensures (exists f: Finding :: f.code == code && IsFinding(records, f, forms)) <==> Coincide(records, code, forms)
  {
    hide Where, Reportable, Coincide;
    ReportableExactly(records, code, forms);
    var coarse := CoarseForm(code, forms);
    if f: Finding :| f.code == code && IsFinding(records, f, forms) {
      var k :| f.records == Where(records, coarse, k);
      assert Reportable(Where(records, coarse, k), code, forms);
    }
    if k :| Reportable(Where(records, coarse, k), code, forms) {
      var f := Finding(code, Where(records, coarse, k));
      assert IsFinding(records, f, forms);
    }
  }

  /** `_collision_findings`: each kind is reported exactly when it occurs, and each finding
      names all matched records that agree with one another. */
  method CollisionFindings(records: seq<Record>, forms: Forms) returns (findings: seq<Finding>)
    ensures forall code :: (exists f :: f in findings && f.code == code) <==> Coincide(Counting(records), code, forms)
    ensures forall f :: f in findings <==> IsFinding(Counting(records), f, forms)
  {
    hide Coincide, Counting, IsFinding;
    var matched := Counting(records);
    var exact := BucketFindings(matched, ExactCollision, forms);
    var normal := BucketFindings(matched, NormalizationCollision, forms);
    var cased := BucketFindings(matched, CaseCollision, forms);
    findings := exact + normal + cased;
    forall f
      ensures f in findings <==> IsFinding(matched, f, forms)
    {
      assert f in findings <==> f in exact || f in normal || f in cased;
    }
    forall code
      ensures (exists f :: f in findings && f.code == code) <==> Coincide(matched, code, forms)
    {
      FindingsExactly(matched, code, forms);
    }
  }

  /** Nothing is reported exactly when the normalized, case-folded destinations of all
      matched records differ: the three kinds together miss nothing. */
  lemma NoFindingMeansDistinct(records: seq<Record>, forms: Forms)
    ensures (forall code :: !Coincide(Counting(records), code, forms)) <==> DistinctBy(Counting(records), forms.Folded())
  {
    hide Counting;
    var matched := Counting(records);
    if forall code :: !Coincide(matched, code, forms) {
      forall i, j | 0 <= i < j < |matched|
        ensures forms.Folded()(matched[i]) != forms.Folded()(matched[j])
      {
        assert !Coincide(matched, ExactCollision, forms) && !Coincide(matched, NormalizationCollision, forms)
               && !Coincide(matched, CaseCollision, forms);
        assert !Conflict(matched[i], matched[j], ExactCollision, forms) && !Conflict(matched[i], matched[j], NormalizationCollision, forms)
               && !Conflict(matched[i], matched[j], CaseCollision, forms);
      }
    }
    if DistinctBy(matched, forms.Folded()) {
      forall code
        ensures !Coincide(matched, code, forms)
      {
        forall i, j | 0 <= i < j < |matched|
          ensures !Conflict(matched[i], matched[j], code, forms)
        {
          assert forms.Folded()(matched[i]) != forms.Folded()(matched[j]);
        }
      }
    }
  }
}
