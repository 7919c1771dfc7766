/** The Lighthouse performance score of `PSIApiUtil._calcTotalScore`: every
    audit's score times the weight the performance category gives its id,
    summed over all audits with `reduce`. */
module PageSpeedScore {
  import opened Wrappers
  import opened Js

  /** An audit's `score`: a number, `null` (the audit does not apply), or absent. */
  datatype AuditScore = Scored(x: real) | NullScore | NoScore

  /** One value of `lighthouseResult.audits`. Its `id` field need not equal
      the key it is stored under. */
  datatype Audit = Audit(id: string, score: AuditScore, numericValue: Value)

  /** One entry of `categories.performance.auditRefs`. */
  datatype AuditRef = AuditRef(id: string, weight: real)

  datatype PerformanceCategory = PerformanceCategory(auditRefs: Option<seq<AuditRef>>)

  datatype Categories = Categories(performance: Option<PerformanceCategory>)

  /** `categories.performance.auditRefs`, failing where a link of the chain is missing. */
  function AuditRefs(categories: Option<Categories>): Result<seq<AuditRef>, Error> {
    match categories
    case None => Failure(MissingField("categories"))
    case Some(c) =>
      match c.performance
      case None => Failure(MissingField("categories.performance"))
      case Some(p) =>
        match p.auditRefs
        case None => Failure(MissingField("categories.performance.auditRefs"))
        case Some(refs) => Success(refs)
  }

  /** `auditRefs.filter(category => category.id == id)` */
  function Matching(refs: seq<AuditRef>, id: string): seq<AuditRef> {
    if refs == [] then []
    else if refs[0].id == id then [refs[0]] + Matching(refs[1..], id)
    else Matching(refs[1..], id)
  }

  /** The weight of line 141: the first matching entry's, or 0 when none matches. */
  function WeightOf(refs: seq<AuditRef>, id: string): real {
    var matching := Matching(refs, id);
    if |matching| > 0 then matching[0].weight else 0.0
  }

  /** The weight is that of the first entry carrying the audit's id ... */
  lemma {:induction false} WeightOfFirstMatch(refs: seq<AuditRef>, id: string, i: nat)
    requires i < |refs| && refs[i].id == id
    requires forall j :: 0 <= j < i ==> refs[j].id != id
    ensures WeightOf(refs, id) == refs[i].weight
  {
    if i > 0 {
      WeightOfFirstMatch(refs[1..], id, i - 1);
    }
  }

  /** ... and 0 when no entry carries it. */
  lemma {:induction false} WeightOfNoMatch(refs: seq<AuditRef>, id: string)
    requires forall j :: 0 <= j < |refs| ==> refs[j].id != id
    ensures WeightOf(refs, id) == 0.0
  {
    if refs != [] {
      WeightOfNoMatch(refs[1..], id);
    }
  }

  /** `audit.score * weight`: null converts to 0, undefined to NaN. */
  function Times(score: AuditScore, weight: real): Number {
    match score
    case Scored(x) => Finite(x * weight)
    case NullScore => Finite(0.0)
    case NoScore => NaN
  }

  /** The `reduce` callback of lines 137-143 applied to the audits in key order. */
  function Reduce(acc: Number, audits: Object<Audit>, refs: seq<AuditRef>): Number
    decreases |audits|
  {
    if audits == [] then acc
    else
      var audit := audits[0].1;
      Reduce(Add(acc, Times(audit.score, WeightOf(refs, audit.id))), audits[1..], refs)
  }

  /** What an audit adds to the score: its score times its weight; an audit
      whose score is null adds nothing. */
  function Contribution(audit: Audit, refs: seq<AuditRef>): real {
    if audit.score.Scored? then audit.score.x * WeightOf(refs, audit.id) else 0.0
  }

  /** The weighted sum the score is meant to be. */
  function WeightedSum(audits: Object<Audit>, refs: seq<AuditRef>): real
    decreases |audits|
  {
    if audits == [] then 0.0
    else Contribution(audits[0].1, refs) + WeightedSum(audits[1..], refs)
  }

  /** Some audit has no `score` property at all. */
  predicate SomeScoreMissing(audits: Object<Audit>) {
    exists i :: 0 <= i < |audits| && audits[i].1.score.NoScore?
  }

  lemma {:induction false} ReduceNaN(audits: Object<Audit>, refs: seq<AuditRef>)
    ensures Reduce(NaN, audits, refs) == NaN
    decreases |audits|
  {
    if audits != [] {
      ReduceNaN(audits[1..], refs);
    }
  }

  /** The fold computes the weighted sum, unless an audit has no score, in
      which case NaN swallows the sum. */
  lemma {:induction false} ReduceIsWeightedSum(acc: real, audits: Object<Audit>, refs: seq<AuditRef>)
    ensures Reduce(Finite(acc), audits, refs)
            == if SomeScoreMissing(audits) then NaN else Finite(acc + WeightedSum(audits, refs))
    decreases |audits|
  {
    if audits != [] {
      var audit := audits[0].1;
      assert SomeScoreMissing(audits) <==> audit.score.NoScore? || SomeScoreMissing(audits[1..]) by {
        if SomeScoreMissing(audits[1..]) {
          var i :| 0 <= i < |audits[1..]| && audits[1..][i].1.score.NoScore?;
          assert audits[i + 1] == audits[1..][i];
        }
        if SomeScoreMissing(audits) && !audit.score.NoScore? {
          var i :| 0 <= i < |audits| && audits[i].1.score.NoScore?;
          assert audits[1..][i - 1] == audits[i];
        }
      }
      match audit.score
      case NoScore =>
        ReduceNaN(audits[1..], refs);
      case NullScore =>
        ReduceIsWeightedSum(acc, audits[1..], refs);
      case Scored(x) =>
        var c := x * WeightOf(refs, audit.id);
        assert Contribution(audit, refs) == c;
        assert Add(Finite(acc), Times(audit.score, WeightOf(refs, audit.id))) == Finite(acc + c);
        ReduceIsWeightedSum(acc + c, audits[1..], refs);
    }
  }

  /** `_calcTotalScore(audits, categories)`. `Object.keys(undefined)` fails;
      the reduce callback is never run on an empty `audits`, so `categories`
      is only read when there is an audit. */
  function CalcTotalScore(audits: Option<Object<Audit>>, categories: Option<Categories>): (r: Result<Number, Error>)
    ensures audits.None? ==> r == Failure(MissingField("audits"))
    ensures audits == Some([]) ==> r == Success(Finite(0.0))
    ensures audits.Some? && audits.value != [] ==>
              r == match AuditRefs(categories)
                   case Failure(e) => Failure(e)
                   case Success(refs) =>
                     Success(if SomeScoreMissing(audits.value) then NaN
                             else Finite(WeightedSum(audits.value, refs)))
  {
    if audits.None? then Failure(MissingField("audits"))
    else if audits.value == [] then Success(Finite(0.0))
    else
      var refs :- AuditRefs(categories);
      ReduceIsWeightedSum(0.0, audits.value, refs);
      Success(Reduce(Finite(0.0), audits.value, refs))
  }

  /** The score reads audits only through their values: renaming the keys
      of `audits` leaves it unchanged, since weights are matched on the
      audits' `id` fields. */
  lemma {:induction false} WeightedSumIgnoresKeys(audits: Object<Audit>, renamed: Object<Audit>, refs: seq<AuditRef>)
    requires |renamed| == |audits|
    requires forall i :: 0 <= i < |audits| ==> renamed[i].1 == audits[i].1
    ensures WeightedSum(renamed, refs) == WeightedSum(audits, refs)
    ensures SomeScoreMissing(renamed) == SomeScoreMissing(audits)
    decreases |audits|
  {
    if audits != [] {
      WeightedSumIgnoresKeys(audits[1..], renamed[1..], refs);
    }
    if SomeScoreMissing(audits) {
      var i :| 0 <= i < |audits| && audits[i].1.score.NoScore?;
      assert renamed[i].1.score.NoScore?;
    }
    if SomeScoreMissing(renamed) {
      var i :| 0 <= i < |renamed| && renamed[i].1.score.NoScore?;
      assert audits[i].1.score.NoScore?;
    }
  }
}
