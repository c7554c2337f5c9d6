/** The recomputation rule: the update pipeline the job sends with each
    point update, kept as data (an aggregation expression) together with
    the store's evaluation of it. */
module Pipeline {
  import opened Values
  import KeyPattern
  import Filter

  /** The aggregation expressions the pipeline uses. */
  datatype Expr =
    | FieldPath(field: Field)                           // "$field"
    | Literal(value: Value)
    | IfNull(arg: Expr, replacement: Expr)              // { $ifNull: [arg, replacement] }
    | And(args: seq<Expr>)                              // { $and: args }
    | Cond(test: Expr, ifTrue: Expr, ifFalse: Expr)     // { $cond: { if, then, else } }
    | Concat(args: seq<Expr>)                           // { $concat: args }
    | ToString(arg: Expr)                               // { $toString: arg }

  /** A pipeline stage `{ $set: { field: expr } }`. */
  datatype Stage = SetField(target: Field, expr: Expr)

  /** The job's pipeline: `num_search` becomes `"j" + job_id + "c" +
      client_code` when both sources are usable, and stays as it was
      otherwise. */
  const UpdatePipeline: seq<Stage> := [SetField(NumSearch, Cond(SourcesGuard, KeyExpr, FieldPath(NumSearch)))]

  /** `{ $and: [ { $ifNull: ["$job_id", false] }, { $ifNull: ["$client_code", false] } ] }` */
  const SourcesGuard: Expr :=
    And([IfNull(FieldPath(JobId), Literal(Bool(false))),
         IfNull(FieldPath(ClientCode), Literal(Bool(false)))])

  /** `{ $concat: ["j", { $toString: "$job_id" }, "c", { $toString: "$client_code" }] }` */
  const KeyExpr: Expr :=
    Concat([Literal(Str("j")), ToString(FieldPath(JobId)),
            Literal(Str("c")), ToString(FieldPath(ClientCode))])

  /** Truthiness in aggregation expressions: absent, null, `false` and
      `0` are false; everything else, the empty string included, is true. */
  predicate Truthy(v: Value)
  {
    !(v.Missing? || v.Null? || v == Bool(false) || v == Int(0))
  }

  /** The text `$toString` gives for a string, an integer or a boolean. */
  function Render(v: Value): string
    requires v.Str? || v.Int? || v.Bool?
  {
    match v
    case Str(s) => s
    case Int(n) => IntToDecimal(n)
    case Bool(b) => if b then "true" else "false"
  }

  /** Joins the arguments of `$concat`: null if any argument is null or
      absent, an error (`None`) if any other is not a string. */
  function ConcatValues(vs: seq<Value>): Option<Value>
    decreases |vs|
  {
    if vs == [] then Some(Str(""))
    else if vs[0].Missing? || vs[0].Null? then
      (if ConcatValues(vs[1..]).Some? then Some(Null) else None)
    else if !vs[0].Str? then None
    else match ConcatValues(vs[1..])
      case None => None
      case Some(rest) => if rest.Str? then Some(Str(vs[0].s + rest.s)) else Some(rest)
  }

  /** The store's evaluation of an expression against a document; `None`
      is an evaluation error, which fails the update. */
  function Eval(e: Expr, r: Record): Option<Value>
    decreases e
  {
    match e
    case FieldPath(f) => Some(r.Get(f))
    case Literal(v) => Some(v)
    case IfNull(a, b) =>
      (match Eval(a, r)
       case None => None
       case Some(v) => if v.Missing? || v.Null? then Eval(b, r) else Some(v))
    case And(args) =>
      var vs := seq(|args|, i requires 0 <= i < |args| => Eval(args[i], r));
      if exists i :: 0 <= i < |vs| && vs[i].None? then None
      else Some(Bool(forall i :: 0 <= i < |vs| ==> Truthy(vs[i].value)))
    case Cond(t, a, b) =>
      (match Eval(t, r)
       case None => None
       case Some(v) => if Truthy(v) then Eval(a, r) else Eval(b, r))
    case Concat(args) =>
      var vs := seq(|args|, i requires 0 <= i < |args| => Eval(args[i], r));
      if exists i :: 0 <= i < |vs| && vs[i].None? then None
      else ConcatValues(seq(|vs|, i requires 0 <= i < |vs| => vs[i].value))
    case ToString(a) =>
      (match Eval(a, r)
       case None => None
       case Some(v) => if v.Missing? || v.Null? then Some(Null) else Some(Str(Render(v))))
  }

  /** Runs the stages in order on a document; `None` if one fails. */
  function RunPipeline(stages: seq<Stage>, r: Record): Option<Record>
    decreases |stages|
  {
    if stages == [] then Some(r)
    else match Eval(stages[0].expr, r)
      case None => None
      case Some(v) => RunPipeline(stages[1..], r.Set(stages[0].target, v))
  }

  /** The document the store holds after `updateOne` with the job's
      pipeline; `None` if the store rejects the update. */
  function Apply(r: Record): Option<Record>
  {
    RunPipeline(UpdatePipeline, r)
  }

  /** Both sources pass the `$ifNull`/`$and` guard. */
  predicate SourcesUsable(r: Record)
  {
    Truthy(r.jobId) && Truthy(r.clientCode)
  }

  /** The key the rule derives from usable sources. */
  function DerivedKey(r: Record): string
    requires SourcesUsable(r)
  {
    "j" + Render(r.jobId) + "c" + Render(r.clientCode)
  }

  /** The recomputation rule: the update never fails; it leaves `_id`,
      `job_id` and `client_code` alone; it sets `num_search` to the
      derived key when both sources are usable and keeps it otherwise. */
  lemma RecomputationRule(r: Record)
    ensures Apply(r).Some?
    ensures Apply(r).value.id == r.id
    ensures Apply(r).value.jobId == r.jobId && Apply(r).value.clientCode == r.clientCode
    ensures SourcesUsable(r) ==> Apply(r).value.numSearch == Str(DerivedKey(r))
    ensures !SourcesUsable(r) ==> Apply(r).value == r
  {
    GuardEvaluation(r);
    var v: Value;
    if SourcesUsable(r) {
      KeyEvaluation(r);
      v := Str(DerivedKey(r));
    } else {
      v := r.numSearch;
    }
    assert Eval(UpdatePipeline[0].expr, r) == Some(v);
    assert UpdatePipeline[1..] == [];
    assert Apply(r) == RunPipeline([], r.Set(NumSearch, v));
    if !SourcesUsable(r) {
      assert r.Set(NumSearch, v) == r;
    }
  }

  /** The guard evaluates to whether both sources are usable. */
  lemma GuardEvaluation(r: Record)
    ensures Eval(SourcesGuard, r) == Some(Bool(SourcesUsable(r)))
  {
    var g1 := IfNull(FieldPath(JobId), Literal(Bool(false)));
    var g2 := IfNull(FieldPath(ClientCode), Literal(Bool(false)));
    assert Eval(g1, r).Some? && (Truthy(Eval(g1, r).value) <==> Truthy(r.jobId));
    assert Eval(g2, r).Some? && (Truthy(Eval(g2, r).value) <==> Truthy(r.clientCode));
    var gs := seq(|SourcesGuard.args|, i requires 0 <= i < |SourcesGuard.args| => Eval(SourcesGuard.args[i], r));
    assert gs == [Eval(g1, r), Eval(g2, r)];
    assert (forall i :: 0 <= i < |gs| ==> Truthy(gs[i].value)) <==> Truthy(gs[0].value) && Truthy(gs[1].value);
  }

  /** With usable sources the `$concat` yields the derived key. */
  lemma KeyEvaluation(r: Record)
    requires SourcesUsable(r)
    ensures Eval(KeyExpr, r) == Some(Str(DerivedKey(r)))
  {
    var parts := KeyExpr.args;
    var j := Render(r.jobId);
    var c := Render(r.clientCode);
    var vs := [Str("j"), Str(j), Str("c"), Str(c)];
    assert Eval(KeyExpr, r) == ConcatValues(vs) by {
      assert Eval(parts[1], r) == Some(Str(j));
      assert Eval(parts[3], r) == Some(Str(c));
      assert forall i :: 0 <= i < |parts| ==> Eval(parts[i], r) == Some(vs[i]);
      ConcatEvaluation(parts, vs, r);
    }
    assert ConcatValues(vs) == Some(Str(DerivedKey(r))) by {
      ConcatOfStrings(vs);
      assert "j" + (j + ("c" + (c + ""))) == DerivedKey(r);
    }
  }

  /** A `$concat` whose arguments all evaluate joins their values. */
  lemma ConcatEvaluation(args: seq<Expr>, vs: seq<Value>, r: Record)
    requires |vs| == |args| && forall i :: 0 <= i < |args| ==> Eval(args[i], r) == Some(vs[i])
    ensures Eval(Concat(args), r) == ConcatValues(vs)
  {
    var es := seq(|args|, i requires 0 <= i < |args| => Eval(args[i], r));
    assert seq(|es|, i requires 0 <= i < |es| => es[i].value) == vs;
  }

  /** `$concat` of four strings is their concatenation. */
  lemma ConcatOfStrings(vs: seq<Value>)
    requires |vs| == 4 && forall i :: 0 <= i < 4 ==> vs[i].Str?
    ensures ConcatValues(vs) == Some(Str(vs[0].s + (vs[1].s + (vs[2].s + (vs[3].s + "")))))
  {
    assert vs[3..][1..] == [];
    assert ConcatValues(vs[3..]) == Some(Str(vs[3].s + ""));
    assert vs[2..][1..] == vs[3..];
    assert ConcatValues(vs[2..]) == Some(Str(vs[2].s + (vs[3].s + "")));
    assert vs[1..][1..] == vs[2..];
    assert ConcatValues(vs[1..]) == Some(Str(vs[1].s + (vs[2].s + (vs[3].s + ""))));
  }

  /** Only `num_search` is written, and it is computed from fields the
      rule never writes, so applying the rule twice is applying it once. */
  lemma ApplyIdempotent(r: Record)
    ensures Apply(r).Some?
    ensures Apply(Apply(r).value) == Apply(r)
  {
    RecomputationRule(r);
    var r1 := Apply(r).value;
    RecomputationRule(r1);
    assert SourcesUsable(r1) == SourcesUsable(r);
  }

  /** A document whose `job_id` and `client_code` are positive integers
      leaves the candidate set once the rule is applied. */
  lemma RepairedRecordIsNotCandidate(r: Record)
    requires r.jobId.Int? && r.jobId.n > 0
    requires r.clientCode.Int? && r.clientCode.n > 0
    ensures Apply(r).Some?
    ensures !Filter.IsCandidate(Apply(r).value)
    ensures !Filter.AnyMatches(Filter.CandidateFilter, Apply(r).value)
  {
    RecomputationRule(r);
    var a, b := IntToDecimal(r.jobId.n), IntToDecimal(r.clientCode.n);
    KeyPattern.KeyOfDigits(a, b);
    KeyPattern.MatchesIffKey("j" + a + "c" + b);
    Filter.CandidateFilterSelectsCandidates(Apply(r).value);
  }
}
